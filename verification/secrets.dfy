/**
  The secrets loader of the message-queue trigger (`readSecrets`): every regular,
  non-hidden file of a directory becomes one entry of a map from file name to
  file contents, all or nothing.

  The file system is not called: a directory is given as the outcome `os.Stat`
  would have, the listing `ioutil.ReadDir` would return, and for each entry the
  outcome `ioutil.ReadFile` would have on it.
*/
module Secrets {
  import opened Wrappers
  import opened Errors

  type byte = bv8

  /** The credential map handed to the message-queue backend. */
  type SecretMap = map<string, seq<byte>>

  /** What reading one file would give. */
  datatype ReadOutcome = Contents(data: seq<byte>) | ReadFailed(err: Error)

  /** One entry of a directory listing: its name, whether it is a directory, and what reading it would give. */
  datatype DirEntry = DirEntry(name: string, isDir: bool, read: ReadOutcome)

  /** What `os.Stat` reports on the secrets path; only "does not exist" stops the loader. */
  datatype StatOutcome = StatOk | StatNotExist(err: Error) | StatFailed(err: Error)

  /** What `ioutil.ReadDir` reports on the secrets path, entries in listing order. */
  datatype ListOutcome = Listed(entries: seq<DirEntry>) | ListFailed(err: Error)

  datatype SecretsDir = SecretsDir(stat: StatOutcome, listing: ListOutcome)

  predicate HasDotPrefix(name: string) {
    |name| > 0 && name[0] == '.'
  }

  /** An entry the loader reads: not a directory and not hidden. */
  predicate IsSecretFile(e: DirEntry) {
    !e.isDir && !HasDotPrefix(e.name)
  }

  /** The entries the loader walks through: the listing, when the path exists and could be listed. */
  function Listing(dir: SecretsDir): seq<DirEntry> {
    if !dir.stat.StatNotExist? && dir.listing.Listed? then dir.listing.entries else []
  }

  /**
    The result of walking `entries` in order, read as the loop's effect on a prefix:
    skipped entries change nothing, a readable file is stored under its name, and
    the first unreadable file turns the whole result into its error.
  */
  function LoadEntries(entries: seq<DirEntry>): Result<SecretMap, Error> {
    if |entries| == 0 then Success(map[])
    else
      var e := entries[|entries| - 1];
      match LoadEntries(entries[..|entries| - 1])
      case Failure(err) => Failure(err)
      case Success(m) =>
        if !IsSecretFile(e) then Success(m)
        else match e.read
          case Contents(data) => Success(m[e.name := data])
          case ReadFailed(err) => Failure(err)
  }

  /** What `readSecrets` returns for a directory. */
  function SecretsOf(dir: SecretsDir): Result<SecretMap, Error> {
    if dir.stat.StatNotExist? then Failure(dir.stat.err)
    else match dir.listing
      case ListFailed(err) => Failure(err)
      case Listed(entries) => LoadEntries(entries)
  }

  /** The names of the entries the loader reads. */
  function SecretNames(entries: seq<DirEntry>): set<string> {
    set i | 0 <= i < |entries| && IsSecretFile(entries[i]) :: entries[i].name
  }

  /** The error of the first entry, in listing order, that the loader reads and cannot read. */
  function FirstReadFailure(entries: seq<DirEntry>): Option<Error> {
    if |entries| == 0 then None
    else if IsSecretFile(entries[0]) && entries[0].read.ReadFailed? then Some(entries[0].read.err)
    else FirstReadFailure(entries[1..])
  }

  /**
    `readSecrets`. `secrets` is the result; `readLog` lists, in call order, the
    positions in the listing of the entries handed to `ReadFile`.
  */
  method ReadSecrets(dir: SecretsDir) returns (secrets: Result<SecretMap, Error>, readLog: seq<nat>)
    ensures secrets == SecretsOf(dir)
    // nothing is read when the path is missing or cannot be listed
    ensures dir.stat.StatNotExist? || dir.listing.ListFailed? ==> readLog == []
    ensures ReadsInOrder(Listing(dir), secrets, readLog)
  {
    if dir.stat.StatNotExist? {
      return Failure(dir.stat.err), [];
    }
    if dir.listing.ListFailed? {
      return Failure(dir.listing.err), [];
    }
    secrets, readLog := ReadEntries(dir.listing.entries);
  }

  /**
    The files read while walking `entries`: only secret files, each at most once,
    in listing order; every read but possibly the last succeeded; on success every
    secret file was read; on failure the failed read is the last one and every
    secret file before it was read.
  */
  predicate ReadsInOrder(entries: seq<DirEntry>, secrets: Result<SecretMap, Error>, readLog: seq<nat>) {
    && (forall k | 0 <= k < |readLog| :: readLog[k] < |entries| && IsSecretFile(entries[readLog[k]]))
    && (forall k | 0 < k < |readLog| :: readLog[k - 1] < readLog[k])
    && (forall k | 0 <= k < |readLog| - 1 :: entries[readLog[k]].read.Contents?)
    && (secrets.Success? ==> forall i | 0 <= i < |entries| && IsSecretFile(entries[i]) :: i in readLog)
    && (secrets.Failure? && |entries| > 0 ==>
          && readLog != []
          && entries[readLog[|readLog| - 1]].read == ReadFailed(secrets.error)
          && forall i | 0 <= i < readLog[|readLog| - 1] && IsSecretFile(entries[i]) :: i in readLog)
  }

  /** The loop of `readSecrets` over a listing. */
  method ReadEntries(entries: seq<DirEntry>) returns (secrets: Result<SecretMap, Error>, readLog: seq<nat>)
    ensures secrets == LoadEntries(entries)
    ensures ReadsInOrder(entries, secrets, readLog)
  {
    readLog := [];
    var acc: SecretMap := map[];
    var i := 0;
    while i < |entries|
      invariant 0 <= i <= |entries|
      invariant LoadEntries(entries[..i]) == Success(acc)
      invariant ReadsBefore(entries, readLog, i)
    {
      var e := entries[i];
      assert entries[..i + 1][..i] == entries[..i];
      if !e.isDir && !HasDotPrefix(e.name) {
        match e.read
        case ReadFailed(err) =>
          FailureIsFinal(entries, i + 1);
          StopAtFailedRead(entries, readLog, i);
          return Failure(err), readLog + [i];
        case Contents(data) =>
          ReadsBeforeStep(entries, readLog, i);
          readLog := readLog + [i];
          acc := acc[e.name := data];
      } else {
        ReadsBeforeStep(entries, readLog, i);
      }
      i := i + 1;
    }
    assert entries[..i] == entries;
    ReadsBeforeDone(entries, readLog, acc);
    secrets := Success(acc);
  }

  /**
    Loop invariant of `ReadEntries` after the first `i` entries: `readLog` holds,
    in increasing order, exactly the secret files among them, all read successfully.
  */
  predicate ReadsBefore(entries: seq<DirEntry>, readLog: seq<nat>, i: nat)
    requires i <= |entries|
  {
    && (forall k | 0 <= k < |readLog| :: readLog[k] < i && IsSecretFile(entries[readLog[k]]) && entries[readLog[k]].read.Contents?)
    && (forall k | 0 < k < |readLog| :: readLog[k - 1] < readLog[k])
    && (forall j | 0 <= j < i && IsSecretFile(entries[j]) :: j in readLog)
  }

  lemma ReadsBeforeStep(entries: seq<DirEntry>, readLog: seq<nat>, i: nat)
    requires i < |entries| && ReadsBefore(entries, readLog, i)
    ensures IsSecretFile(entries[i]) && entries[i].read.Contents? ==> ReadsBefore(entries, readLog + [i], i + 1)
    ensures !IsSecretFile(entries[i]) ==> ReadsBefore(entries, readLog, i + 1)
  {
  }

  lemma StopAtFailedRead(entries: seq<DirEntry>, readLog: seq<nat>, i: nat)
    requires i < |entries| && ReadsBefore(entries, readLog, i)
    requires IsSecretFile(entries[i]) && entries[i].read.ReadFailed?
    ensures ReadsInOrder(entries, Failure(entries[i].read.err), readLog + [i])
  {
  }

  lemma ReadsBeforeDone(entries: seq<DirEntry>, readLog: seq<nat>, m: SecretMap)
    requires ReadsBefore(entries, readLog, |entries|)
    ensures ReadsInOrder(entries, Success(m), readLog)
  {
  }

  /** Once a prefix of the listing fails, the entries after it do not matter. */
  lemma {:induction false} FailureIsFinal(entries: seq<DirEntry>, n: nat)
    requires n <= |entries|
    requires LoadEntries(entries[..n]).Failure?
    ensures LoadEntries(entries) == LoadEntries(entries[..n])
    decreases |entries| - n
  {
    if n < |entries| {
      var shorter := entries[..|entries| - 1];
      assert shorter[..n] == entries[..n];
      FailureIsFinal(shorter, n);
    } else {
      assert entries[..n] == entries;
    }
  }

  lemma {:induction false} FirstReadFailureAppend(entries: seq<DirEntry>, e: DirEntry)
    ensures FirstReadFailure(entries + [e]) ==
      if FirstReadFailure(entries).Some? then FirstReadFailure(entries)
      else if IsSecretFile(e) && e.read.ReadFailed? then Some(e.read.err)
      else None
  {
    if |entries| > 0 {
      assert (entries + [e])[1..] == entries[1..] + [e];
      FirstReadFailureAppend(entries[1..], e);
    }
  }

  /**
    All or nothing: the loader fails exactly when some secret file cannot be read,
    and then with the error of the first such file in listing order, carrying no map.
  */
  lemma {:induction false} LoadFailsOnFirstUnreadable(entries: seq<DirEntry>)
    ensures LoadEntries(entries).Failure? <==> FirstReadFailure(entries).Some?
    ensures LoadEntries(entries).Failure? ==> LoadEntries(entries).error == FirstReadFailure(entries).value
  {
    if |entries| > 0 {
      var shorter := entries[..|entries| - 1];
      assert entries == shorter + [entries[|entries| - 1]];
      LoadFailsOnFirstUnreadable(shorter);
      FirstReadFailureAppend(shorter, entries[|entries| - 1]);
    }
  }

  /** On success the keys are exactly the names of the non-directory, non-hidden entries. */
  lemma {:induction false} LoadKeysAreSecretNames(entries: seq<DirEntry>)
    requires LoadEntries(entries).Success?
    ensures LoadEntries(entries).value.Keys == SecretNames(entries)
  {
    if |entries| > 0 {
      var n := |entries| - 1;
      var shorter := entries[..n];
      LoadKeysAreSecretNames(shorter);
      var e := entries[n];
      assert SecretNames(entries) == SecretNames(shorter) + (if IsSecretFile(e) then {e.name} else {}) by {
        forall x | x in SecretNames(entries)
          ensures x in SecretNames(shorter) + (if IsSecretFile(e) then {e.name} else {})
        {
          var i :| 0 <= i < |entries| && IsSecretFile(entries[i]) && entries[i].name == x;
          if i < n { assert shorter[i] == entries[i]; }
        }
        forall x | x in SecretNames(shorter)
          ensures x in SecretNames(entries)
        {
          var i :| 0 <= i < |shorter| && IsSecretFile(shorter[i]) && shorter[i].name == x;
          assert entries[i] == shorter[i];
        }
      }
    }
  }

  /**
    On success each name maps to the exact contents of its file; when a listing
    repeats a name, the later entry wins, as the map assignment in the loop does.
  */
  lemma {:induction false} LoadValuesAreContents(entries: seq<DirEntry>, i: nat)
    requires LoadEntries(entries).Success?
    requires i < |entries| && IsSecretFile(entries[i])
    requires forall j | i < j < |entries| && IsSecretFile(entries[j]) :: entries[j].name != entries[i].name
    ensures entries[i].name in LoadEntries(entries).value
    ensures entries[i].read == Contents(LoadEntries(entries).value[entries[i].name])
  {
    var n := |entries| - 1;
    var shorter := entries[..n];
    if i < n {
      forall j | i < j < |shorter| && IsSecretFile(shorter[j])
        ensures shorter[j].name != shorter[i].name
      {
        assert shorter[j] == entries[j];
      }
      LoadValuesAreContents(shorter, i);
    }
  }

  /**
    Directories and hidden entries are skipped whatever their read outcome:
    inserting one anywhere in the listing leaves the result unchanged.
  */
  lemma {:induction false} SkippedEntryIsIgnored(entries: seq<DirEntry>, k: nat, e: DirEntry)
    requires k <= |entries|
    requires !IsSecretFile(e)
    ensures LoadEntries(entries[..k] + [e] + entries[k..]) == LoadEntries(entries)
    decreases |entries|
  {
    var s := entries[..k] + [e] + entries[k..];
    if k == |entries| {
      assert s[..|s| - 1] == entries;
    } else {
      var n := |entries| - 1;
      var shorter := entries[..n];
      assert s[..|s| - 1] == shorter[..k] + [e] + shorter[k..];
      assert s[|s| - 1] == entries[n];
      SkippedEntryIsIgnored(shorter, k, e);
    }
  }

  /**
    The mounted-secret layout: two files next to a hidden staging directory.
    The directory contributes nothing.
  */
  lemma StagingDirectoryIsIgnored(user: seq<byte>, pass: seq<byte>, staging: ReadOutcome)
    ensures LoadEntries([
      DirEntry(".staging", true, staging),
      DirEntry("pass", false, Contents(pass)),
      DirEntry("user", false, Contents(user))
    ]) == Success(map["user" := user, "pass" := pass])
  {
    var entries := [
      DirEntry(".staging", true, staging),
      DirEntry("pass", false, Contents(pass)),
      DirEntry("user", false, Contents(user))
    ];
    assert entries[..1][..0] == [];
    assert LoadEntries(entries[..1]) == Success(map[]);
    assert entries[..2][..1] == entries[..1];
    assert LoadEntries(entries[..2]) == Success(map["pass" := pass]);
    assert entries[..2] == entries[..2];
    assert entries[..3][..2] == entries[..2];
    assert entries[..3] == entries;
    assert LoadEntries(entries) == Success(map["pass" := pass]["user" := user]);
    assert "user" != "pass" by { assert "user"[0] != "pass"[0]; }
    assert map["pass" := pass]["user" := user] == map["user" := user, "pass" := pass];
  }
}
