/** DDFileLogger and DDLogFileManagerDefault: rolling the current log file and deleting old ones. */
module LogFiles {
  import opened Options
  import opened Words

  datatype File = File(created: int, size: Word, archived: bool)

  // ----- deleteOldLogFiles, on the files sorted newest first

  /** The loop's counter after the first `n` files. */
  function Counted(files: seq<File>, n: nat): Word
    requires n <= |files|
  {
    if n == 0 then 0 else Plus(Counted(files, n - 1), files[n - 1].size)
  }

  function Used(files: seq<File>, n: nat): nat
    requires n <= |files|
  {
    if n == 0 then 0 else Used(files, n - 1) + files[n - 1].size
  }

  /** Everything on the disk is less than 2^64 bytes. */
  ghost predicate Fits(files: seq<File>) {
    Used(files, |files|) < 0x1_0000_0000_0000_0000
  }

  /** The first file from `i` on with which the counter exceeds the quota. */
  function FirstOver(files: seq<File>, quota: Word, i: nat): (r: Option<nat>)
    requires i <= |files|
    decreases |files| - i
  {
    if i == |files| then None
    else if Counted(files, i + 1) > quota then Some(i)
    else FirstOver(files, quota, i + 1)
  }

  /** None is NSNotFound; a quota or a maximum of zero is disabled. */
  function FirstToDelete(files: seq<File>, maximum: nat, quota: Word): Option<nat> {
    var byQuota := if quota != 0 then FirstOver(files, quota, 0) else None;
    var first :=
      if maximum == 0 then byQuota
      else if byQuota.Some? && byQuota.value < maximum then byQuota
      else Some(maximum);
    if first == Some(0) && files != [] && !files[0].archived then Some(1) else first
  }

  function Kept(files: seq<File>, maximum: nat, quota: Word): seq<File> {
    var first := FirstToDelete(files, maximum, quota);
    if first.Some? && first.value < |files| then files[..first.value] else files
  }

  /** The first `n` files are within both limits. */
  ghost predicate Allowed(files: seq<File>, n: nat, maximum: nat, quota: Word)
    requires n <= |files|
  {
    (maximum != 0 ==> n <= maximum) && (quota != 0 ==> Used(files, n) <= quota)
  }

  predicate ActiveFirst(files: seq<File>) {
    files != [] && !files[0].archived
  }

  lemma {:induction false} UsedGrows(files: seq<File>, m: nat, n: nat)
    requires m <= n <= |files|
    ensures Used(files, m) <= Used(files, n)
  {
    if m < n { UsedGrows(files, m, n - 1); }
  }

  lemma {:induction false} CountedIsUsed(files: seq<File>, n: nat)
    requires Fits(files) && n <= |files|
    ensures Counted(files, n) == Used(files, n)
  {
    UsedGrows(files, n, |files|);
    if n > 0 { CountedIsUsed(files, n - 1); }
  }

  lemma {:induction false} FirstOverIsFirst(files: seq<File>, quota: Word, i: nat)
    requires Fits(files) && i <= |files| && Used(files, i) <= quota
    ensures
      match FirstOver(files, quota, i)
      case None => Used(files, |files|) <= quota
      case Some(k) => i <= k < |files| && Used(files, k) <= quota < Used(files, k + 1)
    decreases |files| - i
  {
    if i < |files| {
      CountedIsUsed(files, i + 1);
      if Used(files, i + 1) <= quota { FirstOverIsFirst(files, quota, i + 1); }
    }
  }

  /**
   * What is kept is the longest newest-first run of files within both limits, or the newest file
   * alone when it is not archived and even it is too much.
   */
  lemma KeepsLongestAllowed(files: seq<File>, maximum: nat, quota: Word)
    requires Fits(files)
    ensures
      var k := |Kept(files, maximum, quota)|;
      && k <= |files| && Kept(files, maximum, quota) == files[..k]
      && (Allowed(files, k, maximum, quota) || (k == 1 && ActiveFirst(files) && !Allowed(files, 1, maximum, quota)))
      && (k < |files| ==> !Allowed(files, k + 1, maximum, quota))
  {
    if quota != 0 { FirstOverIsFirst(files, quota, 0); }
    var k := |Kept(files, maximum, quota)|;
    assert files[..|files|] == files;
    var over := if quota != 0 then FirstOver(files, quota, 0) else None;
    var within := if over.Some? then over.value else |files|;
    if k <= within { UsedGrows(files, k, within); }
  }

  /** The quota is exceeded afterwards if and only if the newest file is still written to and exceeds it alone. */
  lemma QuotaExceededIff(files: seq<File>, maximum: nat, quota: Word)
    requires Fits(files) && quota != 0
    ensures Used(Kept(files, maximum, quota), |Kept(files, maximum, quota)|) > quota
      <==> ActiveFirst(files) && files[0].size > quota
  {
    var k := |Kept(files, maximum, quota)|;
    KeepsLongestAllowed(files, maximum, quota);
    UsedPrefix(files, k, k);
    if k > 0 { UsedGrows(files, 1, k); }
    if ActiveFirst(files) { FirstOverIsFirst(files, quota, 0); }
    assert files != [] ==> Used(files, 1) == files[0].size;
  }

  lemma {:induction false} UsedPrefix(files: seq<File>, k: nat, n: nat)
    requires n <= k <= |files|
    ensures Used(files[..k], n) == Used(files, n)
  {
    if n > 0 { UsedPrefix(files, k, n - 1); }
  }

  ghost predicate NewestFirst(files: seq<File>) {
    forall i, j :: 0 <= i < j < |files| ==> files[i].created >= files[j].created
  }

  /** No file kept is older than a deleted one. */
  lemma KeepsNewest(files: seq<File>, maximum: nat, quota: Word)
    requires Fits(files) && NewestFirst(files)
    ensures
      var k := |Kept(files, maximum, quota)|;
      k <= |files| && forall i, j :: 0 <= i < k <= j < |files| ==> files[i].created >= files[j].created
  {
    KeepsLongestAllowed(files, maximum, quota);
  }

  /**
   * The file at position `i`, even if it is the one being written to, is deleted if and only if it is neither
   * within the limits nor first and not archived.
   */
  lemma DeletedIff(files: seq<File>, maximum: nat, quota: Word, i: nat)
    requires Fits(files) && i < |files|
    ensures i >= |Kept(files, maximum, quota)|
      <==> !Allowed(files, i + 1, maximum, quota) && !(i == 0 && ActiveFirst(files))
  {
    var k := |Kept(files, maximum, quota)|;
    KeepsLongestAllowed(files, maximum, quota);
    if i < k { UsedGrows(files, i + 1, k); } else { UsedGrows(files, k + 1, i + 1); }
  }

  function Archived(files: seq<File>): nat {
    if files == [] then 0 else Archived(files[..|files| - 1]) + if files[|files| - 1].archived then 1 else 0
  }

  lemma {:induction false} ArchivedBehindActive(files: seq<File>)
    requires ActiveFirst(files) && forall i :: 0 < i < |files| ==> files[i].archived
    ensures Archived(files) == |files| - 1
    decreases |files|
  {
    var front := files[..|files| - 1];
    if |files| > 1 { ArchivedBehindActive(front); }
    else { assert front == [] && !files[0].archived; }
  }

  /**
   * The documentation promises `maximum` archived files besides the active one. The active one is
   * counted too, so as many are kept as promised if and only if there are not more files than the maximum.
   */
  lemma KeepsPromisedNumberIff(files: seq<File>, maximum: nat)
    requires Fits(files) && maximum != 0 && ActiveFirst(files) && forall i :: 0 < i < |files| ==> files[i].archived
    ensures
      var promised := if maximum < |files| - 1 then maximum else |files| - 1;
      Archived(Kept(files, maximum, 0)) == promised <==> |files| <= maximum
  {
    KeepsLongestAllowed(files, maximum, 0);
    ArchivedBehindActive(Kept(files, maximum, 0));
  }

  // ----- the directory and its listings

  /** The log files there are, by name; names are numbers in order of creation. */
  type Directory = map<nat, File>

  /** Every file once, newest first; files of one date are in any order. */
  ghost predicate IsListing(names: seq<nat>, dir: Directory) {
    && (forall i :: 0 <= i < |names| ==> names[i] in dir)
    && (forall n :: n in dir ==> n in names)
    && (forall i, j :: 0 <= i < j < |names| ==>
        names[i] != names[j] && dir[names[i]].created >= dir[names[j]].created)
  }

  /** How the directory is read and sorted: the code fixes no order among files of one date. */
  type Listing = l: Directory -> seq<nat> | forall d :: IsListing(l(d), d)
    ghost witness (d: Directory) => Sorted(d)

  ghost function Sorted(dir: Directory): (r: seq<nat>)
    ensures IsListing(r, dir)
    decreases |dir|
  {
    if dir == map[] then []
    else
      NewestExists(dir, dir.Keys);
      var n :| n in dir && forall m :: m in dir ==> dir[m].created <= dir[n].created;
      var rest := Sorted(dir - {n});
      PrependNewest(dir, n, rest);
      [n] + rest
  }

  lemma PrependNewest(dir: Directory, n: nat, rest: seq<nat>)
    requires n in dir && IsListing(rest, dir - {n}) && forall m :: m in dir ==> dir[m].created <= dir[n].created
    ensures IsListing([n] + rest, dir)
  {
    var names := [n] + rest;
    assert forall i :: 0 <= i < |rest| ==> rest[i] in dir - {n};
    assert forall i :: 0 < i < |names| ==> names[i] == rest[i - 1];
    forall m | m in dir ensures m in names {
      if m != n { assert m in dir - {n}; }
    }
  }

  lemma {:induction false} NewestExists(dir: Directory, names: set<nat>)
    requires names != {} && names <= dir.Keys
    ensures exists n :: n in names && forall m :: m in names ==> dir[m].created <= dir[n].created
    decreases |names|
  {
    var a :| a in names;
    if names == {a} {
      assert forall m :: m in names ==> m == a;
    } else {
      NewestExists(dir, names - {a});
      var b :| b in names - {a} && forall m :: m in names - {a} ==> dir[m].created <= dir[b].created;
      var n := if dir[a].created <= dir[b].created then b else a;
      assert forall m :: m in names ==> m == a || m in names - {a};
      assert n in names && forall m :: m in names ==> dir[m].created <= dir[n].created;
    }
  }

  /** Any order that the dates allow is one in which the directory may be listed. */
  lemma AnyListing(dir: Directory, names: seq<nat>) returns (list: Listing)
    requires IsListing(names, dir)
    ensures list(dir) == names
  {
    list := (d: Directory) => if d == dir then names else Sorted(d);
  }

  lemma ListedFirst(list: Listing, dir: Directory)
    requires dir != map[]
    ensures list(dir) != [] && list(dir)[0] in dir
    ensures forall n :: n in dir ==> dir[n].created <= dir[list(dir)[0]].created
  {
    var names := list(dir);
    assert IsListing(names, dir);
    var n :| n in dir;
    assert n in names;
    forall m | m in dir ensures dir[m].created <= dir[names[0]].created {
      var k :| 0 <= k < |names| && names[k] == m;
    }
  }

  function Newest(dir: Directory, list: Listing): (r: nat)
    requires dir != map[]
    ensures r in dir
  {
    ListedFirst(list, dir);
    list(dir)[0]
  }

  function Infos(dir: Directory, names: seq<nat>): (r: seq<File>)
    requires forall i :: 0 <= i < |names| ==> names[i] in dir
    ensures |r| == |names| && forall i :: 0 <= i < |names| ==> r[i] == dir[names[i]]
  {
    seq(|names|, i requires 0 <= i < |names| => dir[names[i]])
  }

  function Listed(dir: Directory, list: Listing): (r: seq<File>)
    ensures |r| == |list(dir)|
  {
    assert IsListing(list(dir), dir);
    Infos(dir, list(dir))
  }

  /** What deleteOldLogFiles leaves. */
  function WithoutOld(dir: Directory, list: Listing, maximum: nat, quota: Word): Directory {
    var kept := |Kept(Listed(dir, list), maximum, quota)|;
    map n | n in dir && n in list(dir)[..kept] :: dir[n]
  }

  // ----- the logger

  datatype State = State(
    files: Directory, nextName: nat, current: Option<nat>, open: bool,
    maximumFileSize: Word, rollingFrequency: int, doNotReuse: bool,
    maximumNumberOfLogFiles: nat, logFilesDiskQuota: Word)

  /** `Timer` is the rolling timer firing. `Relaunch` forgets what the process knew; the files remain. */
  datatype Op =
    | LogMessage(bytes: Word, now: int, list: Listing)
    | Roll
    | Timer(now: int)
    | SetMaximumFileSize(size: Word)
    | SetRollingFrequency(frequency: int, now: int)
    | SetLimits(maximum: nat, quota: Word)
    | Relaunch(doNotReuse: bool)

  /** The directory with the new file in it, before old ones are deleted. */
  function WithNewFile(s: State, now: int): Directory {
    s.files[s.nextName := File(now, 0, false)]
  }

  function CreateNewLogFile(s: State, now: int, list: Listing): State {
    var kept := WithoutOld(WithNewFile(s, now), list, s.maximumNumberOfLogFiles, s.logFilesDiskQuota);
    s.(files := kept, nextName := s.nextName + 1, current := Some(s.nextName))
  }

  predicate ShouldArchive(s: State, f: File, now: int) {
    && !f.archived
    && ((s.maximumFileSize > 0 && f.size >= s.maximumFileSize)
        || (s.rollingFrequency > 0 && now - f.created >= s.rollingFrequency))
  }

  function Update(dir: Directory, name: nat, size: Word, archived: bool): Directory {
    if name in dir then dir[name := dir[name].(size := size, archived := archived)] else dir
  }

  function SizeOf(dir: Directory, name: nat): Word {
    if name in dir then dir[name].size else 0
  }

  /** The files are looked at, and the most recent one is archived if it is due. */
  function ArchiveIfDue(s: State, now: int, list: Listing): State {
    if s.files == map[] then s
    else
      var n := Newest(s.files, list);
      if ShouldArchive(s, s.files[n], now) then s.(files := Update(s.files, n, s.files[n].size, true)) else s
  }

  /** No file is being written to, and the most recent one will not do. */
  predicate NeedsNewFile(s: State, now: int, list: Listing) {
    && s.current.None?
    && (s.files != map[] ==>
        var f := s.files[Newest(s.files, list)];
        s.doNotReuse || f.archived || ShouldArchive(s, f, now))
  }

  /** -currentLogFileInfo: resume the most recent file if it will do, or create one. */
  function CurrentFile(s: State, now: int, list: Listing): State {
    if s.current.Some? then s
    else if NeedsNewFile(s, now, list) then CreateNewLogFile(ArchiveIfDue(s, now, list), now, list)
    else s.(current := Some(Newest(s.files, list)))
  }

  function RollNow(s: State): State {
    if !s.open || s.current.None? then s
    else
      var files := Update(s.files, s.current.value, SizeOf(s.files, s.current.value), true);
      s.(files := files, current := None, open := false)
  }

  function RollDueToSize(s: State): State {
    if s.current.Some? && s.maximumFileSize > 0 && s.open && SizeOf(s.files, s.current.value) >= s.maximumFileSize
    then RollNow(s)
    else s
  }

  function AgeOf(dir: Directory, name: nat, now: int): int {
    if name in dir then now - dir[name].created else 0
  }

  function RollDueToAge(s: State, now: int): State {
    if s.current.Some? && s.rollingFrequency > 0 && AgeOf(s.files, s.current.value, now) >= s.rollingFrequency
    then RollNow(s)
    else s
  }

  /** -currentLogFileHandle: nil if the file is not there. */
  function Open(s: State, now: int, list: Listing): State {
    if s.open then s
    else
      var c := CurrentFile(s, now, list);
      c.(open := c.current.Some? && c.current.value in c.files)
  }

  function Write(s: State, bytes: Word): State {
    if !s.open || s.current.None? then s
    else s.(files := Update(s.files, s.current.value, Plus(SizeOf(s.files, s.current.value), bytes), false))
  }

  function Apply(s: State, op: Op): State {
    match op
    case LogMessage(bytes, now, list) => RollDueToSize(Write(Open(s, now, list), bytes))
    case Roll => RollNow(s)
    case Timer(now) => RollDueToAge(s, now)
    case SetMaximumFileSize(size) => RollDueToSize(s.(maximumFileSize := size))
    case SetRollingFrequency(frequency, now) => RollDueToAge(s.(rollingFrequency := frequency), now)
    case SetLimits(maximum, quota) => s.(maximumNumberOfLogFiles := maximum, logFilesDiskQuota := quota)
    case Relaunch(doNotReuse) => s.(current := None, open := false, doNotReuse := doNotReuse)
  }

  function Run(s: State, ops: seq<Op>): State
    decreases |ops|
  {
    if |ops| == 0 then s else Run(Apply(s, ops[0]), ops[1..])
  }

  // ----- every run

  /** The file written to is there and not archived; whatever the clock does. */
  ghost predicate Inv(s: State) {
    && (forall n :: n in s.files ==> n < s.nextName)
    && (s.current.Some? ==> s.current.value < s.nextName)
    && (s.open ==> s.current.Some? && s.current.value in s.files)
    && (s.current.Some? && s.current.value in s.files ==> !s.files[s.current.value].archived)
  }

  lemma CreateKeeps(s: State, now: int, list: Listing)
    requires Inv(s)
    ensures Inv(CreateNewLogFile(s, now, list).(open := false))
  {
  }

  lemma OpenKeeps(s: State, now: int, list: Listing)
    requires Inv(s)
    ensures Inv(Open(s, now, list))
  {
    if !s.open && NeedsNewFile(s, now, list) { CreateKeeps(ArchiveIfDue(s, now, list), now, list); }
  }

  lemma WriteKeeps(s: State, bytes: Word)
    requires Inv(s)
    ensures Inv(RollDueToSize(Write(s, bytes)))
  {
  }

  lemma ApplyKeeps(s: State, op: Op)
    requires Inv(s)
    ensures Inv(Apply(s, op))
  {
    match op
    case LogMessage(bytes, now, list) =>
      OpenKeeps(s, now, list);
      WriteKeeps(Open(s, now, list), bytes);
    case _ =>
  }

  // ----- an archived file never changes

  /** Every file of `r` is new since `s`, or was there, and is as it was if it was archived. */
  ghost predicate Evolves(s: State, r: State) {
    && s.nextName <= r.nextName
    && forall n :: n in r.files && n < s.nextName ==>
      n in s.files && (s.files[n].archived ==> r.files[n] == s.files[n])
  }

  lemma CreateEvolves(s: State, now: int, list: Listing)
    requires Inv(s)
    ensures Evolves(s, CreateNewLogFile(s, now, list))
  {
  }

  lemma ArchiveEvolves(s: State, now: int, list: Listing)
    requires Inv(s)
    ensures Evolves(s, ArchiveIfDue(s, now, list)) && ArchiveIfDue(s, now, list).nextName == s.nextName
    ensures Inv(s.(current := None, open := false)) && Inv(ArchiveIfDue(s.(current := None, open := false), now, list))
  {
  }

  lemma EvolvesOn(s: State, m: State, r: State)
    requires Evolves(s, m) && Evolves(m, r)
    ensures Evolves(s, r)
  {
  }

  lemma OpenEvolves(s: State, now: int, list: Listing)
    requires Inv(s)
    ensures Evolves(s, Open(s, now, list))
  {
    if !s.open && NeedsNewFile(s, now, list) {
      var m := ArchiveIfDue(s, now, list);
      ArchiveEvolves(s, now, list);
      CreateEvolves(m, now, list);
      EvolvesOn(s, m, CreateNewLogFile(m, now, list));
    }
  }

  /** Writing and rolling change nothing but the current file, which is not archived. */
  lemma WriteEvolves(s: State, bytes: Word)
    requires Inv(s)
    ensures Evolves(s, RollDueToSize(Write(s, bytes)))
  {
  }

  lemma ApplyEvolves(s: State, op: Op)
    requires Inv(s)
    ensures Evolves(s, Apply(s, op))
  {
    if op.LogMessage? {
      var o := Open(s, op.now, op.list);
      OpenKeeps(s, op.now, op.list);
      OpenEvolves(s, op.now, op.list);
      WriteEvolves(o, op.bytes);
      EvolvesOn(s, o, Apply(s, op));
    }
  }

  lemma {:induction false} RunEvolves(s: State, ops: seq<Op>)
    requires Inv(s)
    ensures Evolves(s, Run(s, ops))
    decreases |ops|
  {
    if |ops| > 0 {
      ApplyKeeps(s, ops[0]);
      ApplyEvolves(s, ops[0]);
      RunEvolves(Apply(s, ops[0]), ops[1..]);
    }
  }

  /** Over every run, whatever the clock does: an archived file stays as it is until it is deleted. */
  lemma ArchivedFilesStay(s: State, ops: seq<Op>, n: nat)
    requires Inv(s) && n in s.files && s.files[n].archived && n in Run(s, ops).files
    ensures Run(s, ops).files[n] == s.files[n]
  {
    RunEvolves(s, ops);
  }

  // ----- what is written where

  /** The file that a message is written to, if it is written at all. */
  function Target(s: State, op: Op): Option<nat> {
    if !op.LogMessage? then None
    else
      var o := Open(s, op.now, op.list);
      if o.open then o.current else None
  }

  /** The sizes of the messages logged in a run while file `n` was the one written to. */
  function Logged(s: State, ops: seq<Op>, n: nat): seq<Word>
    decreases |ops|
  {
    if |ops| == 0 then []
    else (if Target(s, ops[0]) == Some(n) then [ops[0].bytes] else []) + Logged(Apply(s, ops[0]), ops[1..], n)
  }

  lemma OpenKeepsSizes(s: State, now: int, list: Listing, n: nat)
    requires Inv(s) && n in Open(s, now, list).files
    ensures Open(s, now, list).files[n].size == if n in s.files then s.files[n].size else 0
    ensures n !in s.files ==> n >= s.nextName
  {
    if !s.open && NeedsNewFile(s, now, list) {
      ArchiveEvolves(s, now, list);
      ArchivingKeepsRest(s, now, list, n);
      CreateSizes(ArchiveIfDue(s, now, list), now, list, n);
    }
  }

  lemma CreateSizes(s: State, now: int, list: Listing, n: nat)
    requires Inv(s) && n in CreateNewLogFile(s, now, list).files
    ensures CreateNewLogFile(s, now, list).files[n].size == if n == s.nextName then 0 else s.files[n].size
    ensures n == s.nextName || n in s.files
  {
  }

  lemma WriteSizes(s: State, bytes: Word, n: nat)
    requires Inv(s)
    ensures n in RollDueToSize(Write(s, bytes)).files <==> n in s.files
    ensures n in s.files ==>
      RollDueToSize(Write(s, bytes)).files[n].size ==
      if s.open && s.current == Some(n) then Plus(s.files[n].size, bytes) else s.files[n].size
  {
  }

  /** One step adds what it writes, to a file that may have been created empty. */
  lemma SizeStep(s: State, op: Op, n: nat)
    requires Inv(s)
    ensures Target(s, op) == Some(n) ==> n in Apply(s, op).files
    ensures n in Apply(s, op).files ==>
      && (n !in s.files ==> n >= s.nextName)
      && Apply(s, op).files[n].size
         == Plus(if n in s.files then s.files[n].size else 0, if Target(s, op) == Some(n) then op.bytes else 0)
  {
    if op.LogMessage? {
      OpenKeeps(s, op.now, op.list);
      WriteSizes(Open(s, op.now, op.list), op.bytes, n);
      if n in Open(s, op.now, op.list).files { OpenKeepsSizes(s, op.now, op.list, n); }
    }
  }

  lemma NeverComesBack(s: State, ops: seq<Op>, n: nat)
    requires Inv(s) && n < s.nextName && n !in s.files
    ensures n !in Run(s, ops).files
  {
    RunEvolves(s, ops);
  }

  function SizeIn(s: State, n: nat): Word {
    if n in s.files then s.files[n].size else 0
  }

  lemma StaysOrIsToCome(s: State, op: Op, ops: seq<Op>, n: nat)
    requires Inv(s) && n in Run(Apply(s, op), ops).files
    ensures SizeIn(Apply(s, op), n) == Plus(SizeIn(s, n), if Target(s, op) == Some(n) then op.bytes else 0)
  {
    ApplyKeeps(s, op);
    ApplyEvolves(s, op);
    SizeStep(s, op, n);
    if n !in Apply(s, op).files && n < Apply(s, op).nextName { NeverComesBack(Apply(s, op), ops, n); }
  }

  /**
   * Over every run, whatever the clock does: the size of a file is what it held at the start and the
   * messages logged while it was the one written to, added up in words.
   */
  lemma {:induction false} SizesAreSums(s: State, ops: seq<Op>, n: nat)
    requires Inv(s) && n in Run(s, ops).files
    ensures Run(s, ops).files[n].size == CountedUp(SizeIn(s, n), Logged(s, ops, n))
    decreases |ops|
  {
    if |ops| > 0 {
      ApplyKeeps(s, ops[0]);
      SizesAreSums(Apply(s, ops[0]), ops[1..], n);
      StaysOrIsToCome(s, ops[0], ops[1..], n);
      CountedUpFirst(SizeIn(s, n), ops[0], Logged(Apply(s, ops[0]), ops[1..], n));
    }
  }

  lemma CountedUpFirst(start: Word, op: Op, rest: seq<Word>)
    ensures CountedUp(start, [] + rest) == CountedUp(Plus(start, 0), rest)
    ensures op.LogMessage? ==> CountedUp(start, [op.bytes] + rest) == CountedUp(Plus(start, op.bytes), rest)
  {
    assert [] + rest == rest;
    if op.LogMessage? { assert ([op.bytes] + rest)[1..] == rest; }
  }

  /** The file has been archived and closed, and nothing else has changed. */
  ghost predicate Rolled(s: State, r: State, n: nat) {
    && n in s.files && r.files == s.files[n := s.files[n].(archived := true)]
    && r.current == None && !r.open
  }

  lemma WriteRollsIff(s: State, bytes: Word, n: nat)
    requires Inv(s) && s.open && s.current == Some(n)
    ensures
      var r := RollDueToSize(Write(s, bytes));
      n in r.files && r.files[n].size == Plus(s.files[n].size, bytes)
      && if s.maximumFileSize > 0 && r.files[n].size >= s.maximumFileSize
         then r.files[n].archived && r.current == None && !r.open
         else !r.files[n].archived && r.current == Some(n) && r.open
  {
  }

  lemma TargetRollsIff(s: State, op: Op, n: nat)
    requires Inv(s) && Target(s, op) == Some(n)
    ensures
      var r := Apply(s, op);
      n in r.files
      && if s.maximumFileSize > 0 && r.files[n].size >= s.maximumFileSize
         then r.files[n].archived && r.current == None && !r.open
         else !r.files[n].archived && r.current == Some(n) && r.open
  {
    OpenKeeps(s, op.now, op.list);
    WriteRollsIff(Open(s, op.now, op.list), op.bytes, n);
  }

  /**
   * In every run a message leaves the file it is written to archived and closed if and only if there is a
   * maximum size and what was logged to the file reaches it, and otherwise leaves it open.
   */
  lemma MessageRollsIff(s: State, ops: seq<Op>, op: Op, n: nat)
    requires Inv(s) && Target(Run(s, ops), op) == Some(n)
    ensures
      var r, maximum := Run(s, ops + [op]), MaximumSize(s.maximumFileSize, ops);
      n in r.files
      && if maximum > 0 && CountedUp(SizeIn(s, n), Logged(s, ops + [op], n)) >= maximum
         then r.files[n].archived && r.current == None && !r.open
         else !r.files[n].archived && r.current == Some(n) && r.open
  {
    RunKeeps(s, ops);
    TargetRollsIff(Run(s, ops), op, n);
    RunOneMore(s, ops, op);
    SizesAreSums(s, ops + [op], n);
    SizeLimitIsLastSet(s, ops);
  }

  /** The settings last set. */
  function MaximumSize(size: Word, ops: seq<Op>): Word
    decreases |ops|
  {
    if |ops| == 0 then size
    else MaximumSize(if ops[0].SetMaximumFileSize? then ops[0].size else size, ops[1..])
  }

  function Frequency(frequency: int, ops: seq<Op>): int
    decreases |ops|
  {
    if |ops| == 0 then frequency
    else Frequency(if ops[0].SetRollingFrequency? then ops[0].frequency else frequency, ops[1..])
  }

  function Limits(limits: (nat, Word), ops: seq<Op>): (nat, Word)
    decreases |ops|
  {
    if |ops| == 0 then limits
    else Limits(if ops[0].SetLimits? then (ops[0].maximum, ops[0].quota) else limits, ops[1..])
  }

  function NoReuse(doNotReuse: bool, ops: seq<Op>): bool
    decreases |ops|
  {
    if |ops| == 0 then doNotReuse
    else NoReuse(if ops[0].Relaunch? then ops[0].doNotReuse else doNotReuse, ops[1..])
  }

  lemma {:induction false} SettingsAreLastSet(s: State, ops: seq<Op>)
    ensures
      var r := Run(s, ops);
      && r.maximumFileSize == MaximumSize(s.maximumFileSize, ops)
      && r.rollingFrequency == Frequency(s.rollingFrequency, ops)
      && (r.maximumNumberOfLogFiles, r.logFilesDiskQuota)
         == Limits((s.maximumNumberOfLogFiles, s.logFilesDiskQuota), ops)
      && r.doNotReuse == NoReuse(s.doNotReuse, ops)
    decreases |ops|
  {
    if |ops| > 0 {
      SettingsStep(s, ops[0]);
      SettingsAreLastSet(Apply(s, ops[0]), ops[1..]);
    }
  }

  lemma SizeLimitIsLastSet(s: State, ops: seq<Op>)
    ensures Run(s, ops).maximumFileSize == MaximumSize(s.maximumFileSize, ops)
  {
    SettingsAreLastSet(s, ops);
  }

  lemma OpenChangesOnly(s: State, now: int, list: Listing)
    ensures
      var r := Open(s, now, list);
      r == s.(files := r.files, nextName := r.nextName, current := r.current, open := r.open)
  {
  }

  lemma WriteChangesOnly(s: State, bytes: Word)
    ensures
      var r := RollDueToSize(Write(s, bytes));
      r == s.(files := r.files, current := r.current, open := r.open)
  {
  }

  lemma SettingsStep(s: State, op: Op)
    ensures
      var r := Apply(s, op);
      && r.maximumFileSize == (if op.SetMaximumFileSize? then op.size else s.maximumFileSize)
      && r.rollingFrequency == (if op.SetRollingFrequency? then op.frequency else s.rollingFrequency)
      && r.maximumNumberOfLogFiles == (if op.SetLimits? then op.maximum else s.maximumNumberOfLogFiles)
      && r.logFilesDiskQuota == (if op.SetLimits? then op.quota else s.logFilesDiskQuota)
      && r.doNotReuse == (if op.Relaunch? then op.doNotReuse else s.doNotReuse)
  {
    if op.LogMessage? {
      OpenChangesOnly(s, op.now, op.list);
      WriteChangesOnly(Open(s, op.now, op.list), op.bytes);
    }
  }

  /** A relaunched process has no file open, and finds the files as they were. */
  lemma RelaunchForgets(s: State, doNotReuse: bool)
    ensures
      var r := Apply(s, Relaunch(doNotReuse));
      r.current == None && !r.open && r.files == s.files && r.nextName == s.nextName
  {
  }

  lemma {:induction false} RunKeeps(s: State, ops: seq<Op>)
    requires Inv(s)
    ensures Inv(Run(s, ops))
    decreases |ops|
  {
    if |ops| > 0 {
      ApplyKeeps(s, ops[0]);
      RunKeeps(Apply(s, ops[0]), ops[1..]);
    }
  }

  lemma {:induction false} RunOneMore(s: State, ops: seq<Op>, op: Op)
    ensures Run(s, ops + [op]) == Apply(Run(s, ops), op)
    decreases |ops|
  {
    if |ops| == 0 {
      assert (ops + [op])[0] == op && |(ops + [op])[1..]| == 0;
    } else {
      assert (ops + [op])[1..] == ops[1..] + [op];
      RunOneMore(Apply(s, ops[0]), ops[1..], op);
    }
  }

  /** When an operation other than logging is to roll the open file. */
  predicate RollsDue(s: State, op: Op, f: File) {
    match op
    case Roll => true
    case Timer(now) => s.rollingFrequency > 0 && now - f.created >= s.rollingFrequency
    case SetMaximumFileSize(size) => size > 0 && f.size >= size
    case SetRollingFrequency(frequency, now) => frequency > 0 && now - f.created >= frequency
    case _ => false
  }

  /** The open file is archived and closed exactly when that is due. */
  lemma OthersRollIff(s: State, op: Op)
    requires Inv(s) && s.open && !op.LogMessage? && !op.Relaunch?
    ensures
      var r, n := Apply(s, op), s.current.value;
      if RollsDue(s, op, s.files[n]) then Rolled(s, r, n)
      else r.files == s.files && r.current == s.current && r.open
  {
  }

  /** Over every run nothing is logged to an archived file, so not to one that was rolled. */
  lemma {:induction false} NothingLoggedToArchived(s: State, ops: seq<Op>, n: nat)
    requires Inv(s) && n in s.files && s.files[n].archived
    ensures Logged(s, ops, n) == []
    decreases |ops|
  {
    if |ops| > 0 {
      var t := Apply(s, ops[0]);
      ApplyKeeps(s, ops[0]);
      ApplyEvolves(s, ops[0]);
      ArchivedIsNoTarget(s, ops[0], n);
      if n in t.files { NothingLoggedToArchived(t, ops[1..], n); } else { NothingLoggedToGone(t, ops[1..], n); }
    }
  }

  lemma ArchivedIsNoTarget(s: State, op: Op, n: nat)
    requires Inv(s) && n < s.nextName && (n in s.files ==> s.files[n].archived)
    ensures Target(s, op) != Some(n)
  {
    if op.LogMessage? { OpenKeeps(s, op.now, op.list); }
  }

  lemma {:induction false} NothingLoggedToGone(s: State, ops: seq<Op>, n: nat)
    requires Inv(s) && n < s.nextName && n !in s.files
    ensures Logged(s, ops, n) == []
    decreases |ops|
  {
    if |ops| > 0 {
      ApplyKeeps(s, ops[0]);
      ApplyEvolves(s, ops[0]);
      ArchivedIsNoTarget(s, ops[0], n);
      NothingLoggedToGone(Apply(s, ops[0]), ops[1..], n);
    }
  }

  predicate TooBig(s: State, f: File) {
    s.maximumFileSize > 0 && f.size >= s.maximumFileSize
  }

  predicate TooOld(s: State, f: File, now: int) {
    s.rollingFrequency > 0 && now - f.created >= s.rollingFrequency
  }

  lemma ArchivesWhenDue(s: State, now: int, list: Listing)
    requires s.files != map[] && list(s.files) != [] && list(s.files)[0] in s.files
    ensures
      var n, a := list(s.files)[0], ArchiveIfDue(s, now, list);
      var f := s.files[n];
      && n in a.files && a.nextName == s.nextName
      && a.files[n] == f.(archived := f.archived || TooBig(s, f) || TooOld(s, f, now))
  {
  }

  lemma CreatingKeepsRest(s: State, now: int, list: Listing, n: nat)
    requires n in s.files && n != s.nextName
    ensures
      var o := CreateNewLogFile(s, now, list);
      && o.nextName == s.nextName + 1 && o.current == Some(s.nextName)
      && (n in o.files ==> o.files[n] == s.files[n])
  {
  }

  /**
   * With no file written to, a message resumes the file listed first if it is not archived, may be reused,
   * and is neither too big nor too old; otherwise it creates a file, and a too big or too old one is archived.
   */
  lemma ResumesIff(s: State, now: int, list: Listing)
    requires Inv(s) && !s.open && s.current.None? && s.files != map[]
    ensures list(s.files) != [] && list(s.files)[0] in s.files
    ensures
      var n, o := list(s.files)[0], Open(s, now, list);
      var f := s.files[n];
      if !f.archived && !s.doNotReuse && !TooBig(s, f) && !TooOld(s, f, now)
      then o == s.(current := Some(n), open := true)
      else
        && o.nextName == s.nextName + 1 && o.current == Some(s.nextName)
        && (n in o.files ==> o.files[n] == f.(archived := f.archived || TooBig(s, f) || TooOld(s, f, now)))
  {
    ListedFirst(list, s.files);
    ArchivesWhenDue(s, now, list);
    if NeedsNewFile(s, now, list) {
      CreatingKeepsRest(ArchiveIfDue(s, now, list), now, list, list(s.files)[0]);
    }
  }

  /** The date of the operation that created file `n`. */
  function Birth(s: State, ops: seq<Op>, n: nat): Option<int>
    decreases |ops|
  {
    if |ops| == 0 then None
    else if Creates(s, ops[0]) && s.nextName == n then Some(ops[0].now)
    else Birth(Apply(s, ops[0]), ops[1..], n)
  }

  lemma DateStep(s: State, op: Op, n: nat)
    requires Inv(s) && n in Apply(s, op).files
    ensures n in s.files ==> Apply(s, op).files[n].created == s.files[n].created
    ensures n !in s.files ==> Creates(s, op) && s.nextName == n && Apply(s, op).files[n].created == op.now
  {
    if op.LogMessage? {
      OpenKeeps(s, op.now, op.list);
      WriteDates(Open(s, op.now, op.list), op.bytes, n);
      OpenDates(s, op.now, op.list, n);
    }
  }

  lemma WriteDates(s: State, bytes: Word, n: nat)
    requires Inv(s) && n in RollDueToSize(Write(s, bytes)).files
    ensures n in s.files && RollDueToSize(Write(s, bytes)).files[n].created == s.files[n].created
  {
  }

  lemma CreateDates(s: State, now: int, list: Listing, n: nat)
    requires Inv(s) && n in CreateNewLogFile(s, now, list).files
    ensures CreateNewLogFile(s, now, list).files[n].created == if n == s.nextName then now else s.files[n].created
    ensures n == s.nextName || n in s.files
  {
  }

  lemma OpenDates(s: State, now: int, list: Listing, n: nat)
    requires Inv(s) && n in Open(s, now, list).files
    ensures n in s.files ==> Open(s, now, list).files[n].created == s.files[n].created
    ensures n !in s.files ==>
      !s.open && NeedsNewFile(s, now, list) && s.nextName == n && Open(s, now, list).files[n].created == now
  {
    if !s.open && NeedsNewFile(s, now, list) {
      ArchiveEvolves(s, now, list);
      ArchivingKeepsRest(s, now, list, n);
      CreateDates(ArchiveIfDue(s, now, list), now, list, n);
    }
  }

  lemma ArchivingKeepsRest(s: State, now: int, list: Listing, n: nat)
    ensures n in ArchiveIfDue(s, now, list).files <==> n in s.files
    ensures n in s.files ==> ArchiveIfDue(s, now, list).files[n].(archived := true) == s.files[n].(archived := true)
    ensures ArchiveIfDue(s, now, list).nextName == s.nextName
  {
  }

  /** Over every run the date of a file is the one it had at the start, or that of the message that created it. */
  lemma {:induction false} DatesOfFiles(s: State, ops: seq<Op>, n: nat)
    requires Inv(s) && n in Run(s, ops).files
    ensures if n in s.files then Run(s, ops).files[n].created == s.files[n].created
            else Birth(s, ops, n) == Some(Run(s, ops).files[n].created)
    decreases |ops|
  {
    if |ops| > 0 {
      var t := Apply(s, ops[0]);
      ApplyKeeps(s, ops[0]);
      ApplyEvolves(s, ops[0]);
      DatesOfFiles(t, ops[1..], n);
      if n in t.files { DateStep(s, ops[0], n); }
      else if n < t.nextName { NeverComesBack(t, ops[1..], n); }
    }
  }

  // ----- a new file and the clean-up of its own creation

  /**
   * A new file survives the clean-up that its own creation sets off if and only if it is listed first,
   * or it and all files listed before it are within the limits.
   */
  lemma NewFileSurvivesIff(s: State, now: int, list: Listing, p: nat)
    requires p < |list(WithNewFile(s, now))| && list(WithNewFile(s, now))[p] == s.nextName
    requires Fits(Listed(WithNewFile(s, now), list))
    ensures s.nextName in CreateNewLogFile(s, now, list).files
      <==> p == 0 || Allowed(Listed(WithNewFile(s, now), list), p + 1, s.maximumNumberOfLogFiles, s.logFilesDiskQuota)
  {
    var dir := WithNewFile(s, now);
    var files := Listed(dir, list);
    assert IsListing(list(dir), dir);
    DeletedIff(files, s.maximumNumberOfLogFiles, s.logFilesDiskQuota, p);
    assert files[p] == File(now, 0, false);
    InPrefixIff(list(dir), |Kept(files, s.maximumNumberOfLogFiles, s.logFilesDiskQuota)|, p);
  }

  /**
   * Deleting old files leaves a file of the directory, as it is, if and only if it and all listed before it
   * are within the limits, or it is listed first and not archived.
   */
  lemma FileIsLeftIff(dir: Directory, list: Listing, maximum: nat, quota: Word, p: nat)
    requires p < |list(dir)| && Fits(Listed(dir, list))
    ensures list(dir)[p] in dir
    ensures list(dir)[p] in WithoutOld(dir, list, maximum, quota)
      <==> Allowed(Listed(dir, list), p + 1, maximum, quota) || (p == 0 && !dir[list(dir)[0]].archived)
    ensures forall n :: n in WithoutOld(dir, list, maximum, quota) ==>
      n in dir && WithoutOld(dir, list, maximum, quota)[n] == dir[n]
  {
    assert IsListing(list(dir), dir);
    var files := Listed(dir, list);
    DeletedIff(files, maximum, quota, p);
    InPrefixIff(list(dir), |Kept(files, maximum, quota)|, p);
  }

  lemma InPrefixIff(names: seq<nat>, n: nat, p: nat)
    requires p < |names| && n <= |names| && forall i, j :: 0 <= i < j < |names| ==> names[i] != names[j]
    ensures names[p] in names[..n] <==> p < n
  {
    if p < n { assert names[..n][p] == names[p]; }
  }

  /** Where a new file is listed: behind every newer file, before every older one, anywhere among those of its date. */
  lemma NewFilePlace(s: State, now: int, list: Listing) returns (p: nat)
    ensures p < |list(WithNewFile(s, now))| && list(WithNewFile(s, now))[p] == s.nextName
    ensures (forall n :: n in s.files && n != s.nextName ==> s.files[n].created < now) ==> p == 0
  {
    var dir := WithNewFile(s, now);
    var names := list(dir);
    assert IsListing(names, dir);
    assert s.nextName in names;
    p :| 0 <= p < |names| && names[p] == s.nextName;
    if p > 0 { assert names[0] in dir && names[0] != s.nextName && dir[names[0]].created >= now; }
  }

  ghost predicate Survives(s: State, now: int, list: Listing) {
    var dir := WithNewFile(s, now);
    exists p :: 0 <= p < |list(dir)| && list(dir)[p] == s.nextName
      && (p == 0 || Allowed(Listed(dir, list), p + 1, s.maximumNumberOfLogFiles, s.logFilesDiskQuota))
  }

  lemma CreatedIff(s: State, now: int, list: Listing)
    requires Fits(Listed(WithNewFile(s, now), list))
    ensures s.nextName in CreateNewLogFile(s, now, list).files <==> Survives(s, now, list)
  {
    var p := NewFilePlace(s, now, list);
    NewFileSurvivesIff(s, now, list, p);
    var dir := WithNewFile(s, now);
    assert IsListing(list(dir), dir);
  }

  predicate Creates(s: State, op: Op) {
    op.LogMessage? && !s.open && NeedsNewFile(s, op.now, op.list)
  }

  /** Every file created on the way is listed first or within the limits. */
  ghost predicate AllSurvive(s: State, ops: seq<Op>)
    decreases |ops|
  {
    |ops| == 0 ||
    ((Creates(s, ops[0]) ==> Survives(ArchiveIfDue(s, ops[0].now, ops[0].list), ops[0].now, ops[0].list))
     && AllSurvive(Apply(s, ops[0]), ops[1..]))
  }

  /** At no creation are there 2^64 bytes on the disk. */
  ghost predicate FitsThroughout(s: State, ops: seq<Op>)
    decreases |ops|
  {
    |ops| == 0 ||
    ((Creates(s, ops[0]) ==>
      Fits(Listed(WithNewFile(ArchiveIfDue(s, ops[0].now, ops[0].list), ops[0].now), ops[0].list)))
     && FitsThroughout(Apply(s, ops[0]), ops[1..]))
  }

  predicate CurrentThere(s: State) {
    s.current.Some? ==> s.current.value in s.files
  }

  predicate ThereThroughout(s: State, ops: seq<Op>)
    decreases |ops|
  {
    CurrentThere(s) && (|ops| == 0 || ThereThroughout(Apply(s, ops[0]), ops[1..]))
  }

  lemma StepStaysThereIff(s: State, op: Op)
    requires Inv(s) && CurrentThere(s)
    requires Creates(s, op) ==> Fits(Listed(WithNewFile(ArchiveIfDue(s, op.now, op.list), op.now), op.list))
    ensures CurrentThere(Apply(s, op))
      <==> (Creates(s, op) ==> Survives(ArchiveIfDue(s, op.now, op.list), op.now, op.list))
  {
    if Creates(s, op) { CreatedIff(ArchiveIfDue(s, op.now, op.list), op.now, op.list); }
  }

  /**
   * Over every run, whatever the clock does: the file being written to is there at every point if and
   * only if each file created on the way is listed first or within the limits when it is created.
   */
  lemma {:induction false} NeverLostIff(s: State, ops: seq<Op>)
    requires Inv(s) && CurrentThere(s) && FitsThroughout(s, ops)
    ensures ThereThroughout(s, ops) <==> AllSurvive(s, ops)
    decreases |ops|
  {
    if |ops| > 0 {
      StepStaysThereIff(s, ops[0]);
      ApplyKeeps(s, ops[0]);
      if CurrentThere(Apply(s, ops[0])) { NeverLostIff(Apply(s, ops[0]), ops[1..]); }
    }
  }

  /** Once lost, the logger holds on to a file that is not there and writes nothing until relaunched. */
  lemma {:induction false} LostUntilRelaunch(s: State, ops: seq<Op>)
    requires s.current.Some? && s.current.value !in s.files && !s.open
    requires forall i :: 0 <= i < |ops| ==> !ops[i].Relaunch?
    ensures Run(s, ops).files == s.files
    decreases |ops|
  {
    if |ops| > 0 { LostUntilRelaunch(Apply(s, ops[0]), ops[1..]); }
  }

  /** One archived file of date 5, and room for one file. */
  function OneArchived(): State {
    State(map[0 := File(5, 10, true)], 1, None, false, 10, 0, false, 1, 0)
  }

  /** Listed behind the archived file, a new one of the same date is deleted. */
  lemma NewFileLosesTie(list: Listing)
    requires list(WithNewFile(OneArchived(), 5)) == [0, 1]
    ensures CreateNewLogFile(OneArchived(), 5, list) == OneArchived().(nextName := 2, current := Some(1))
  {
    var dir := WithNewFile(OneArchived(), 5);
    assert |Kept(Listed(dir, list), 1, 0)| == 1 && [0, 1][..1] == [0];
    assert WithoutOld(dir, list, 1, 0) == OneArchived().files;
  }

  lemma ArchivedNeedsNew(list: Listing)
    ensures NeedsNewFile(OneArchived(), 5, list) && ArchiveIfDue(OneArchived(), 5, list) == OneArchived()
  {
    assert 0 in OneArchived().files;
  }

  lemma LoggedAtTie(bytes: Word, list: Listing)
    requires list(WithNewFile(OneArchived(), 5)) == [0, 1]
    ensures Apply(OneArchived(), LogMessage(bytes, 5, list)) == OneArchived().(nextName := 2, current := Some(1))
  {
    ArchivedNeedsNew(list);
    NewFileLosesTie(list);
    assert 1 !in OneArchived().files;
    assert Open(OneArchived(), 5, list) == OneArchived().(nextName := 2, current := Some(1));
  }

  /**
   * Created at the very date of an archived file and listed behind it, with room for one file: the new
   * file is deleted at once, and nothing logged from then on is written.
   */
  lemma LostToATie(bytes: Word, ops: seq<Op>) returns (list: Listing)
    requires forall i :: 0 <= i < |ops| ==> !ops[i].Relaunch?
    ensures
      var r := Apply(OneArchived(), LogMessage(bytes, 5, list));
      r.current == Some(1) && r.files == OneArchived().files && Run(r, ops).files == r.files
  {
    list := AnyListing(WithNewFile(OneArchived(), 5), [0, 1]);
    LoggedAtTie(bytes, list);
    LostUntilRelaunch(Apply(OneArchived(), LogMessage(bytes, 5, list)), ops);
  }

  // ----- a clock that goes forward

  /** The current file is there and not archived, no file is newer, and it is small enough to be written to. */
  ghost predicate CurrentOk(s: State) {
    && (s.open <==> s.current.Some?)
    && (s.current.Some? ==>
        && s.current.value in s.files
        && (forall n :: n in s.files ==> s.files[n].created <= s.files[s.current.value].created)
        && (s.maximumFileSize > 0 ==> s.files[s.current.value].size < s.maximumFileSize))
  }

  /** When a file is created, the clock is ahead of every file. */
  ghost predicate ClockOk(s: State, op: Op) {
    Creates(s, op) ==> forall n :: n in s.files ==> s.files[n].created < op.now
  }

  lemma CreateIsCurrent(s: State, now: int, list: Listing)
    requires Inv(s) && forall n :: n in s.files ==> s.files[n].created < now
    ensures
      var r := CreateNewLogFile(s, now, list);
      s.nextName in r.files && r.files[s.nextName] == File(now, 0, false)
      && forall n :: n in r.files ==> r.files[n].created <= now
  {
    var dir := WithNewFile(s, now);
    var p := NewFilePlace(s, now, list);
    assert IsListing(list(dir), dir);
    ActiveStays(Listed(dir, list), s.maximumNumberOfLogFiles, s.logFilesDiskQuota);
    assert list(dir)[..1][0] == s.nextName;
  }

  /** A file listed first and not archived is never deleted. */
  lemma ActiveStays(files: seq<File>, maximum: nat, quota: Word)
    requires ActiveFirst(files)
    ensures 0 < |Kept(files, maximum, quota)|
  {
  }

  lemma OpenKeepsCurrent(s: State, op: Op)
    requires Inv(s) && CurrentOk(s) && ClockOk(s, op) && op.LogMessage?
    ensures CurrentOk(Open(s, op.now, op.list)) && Open(s, op.now, op.list).open
  {
    if Creates(s, op) {
      CreateIsCurrent(ArchiveIfDue(s, op.now, op.list), op.now, op.list);
    } else if !s.open {
      ListedFirst(op.list, s.files);
    }
  }

  lemma RollKeepsCurrent(s: State)
    requires Inv(s) && (s.open <==> s.current.Some?)
    requires s.current.Some? ==> forall n :: n in s.files ==> s.files[n].created <= s.files[s.current.value].created
    ensures CurrentOk(RollDueToSize(s))
  {
  }

  lemma LogKeepsCurrent(s: State, op: Op)
    requires Inv(s) && CurrentOk(s) && ClockOk(s, op) && op.LogMessage?
    ensures CurrentOk(Apply(s, op))
  {
    OpenKeeps(s, op.now, op.list);
    OpenKeepsCurrent(s, op);
    WriteKeepsCurrent(Open(s, op.now, op.list), op.bytes);
  }

  lemma WriteKeepsCurrent(s: State, bytes: Word)
    requires Inv(s) && CurrentOk(s)
    ensures CurrentOk(RollDueToSize(Write(s, bytes)))
  {
    RollKeepsCurrent(Write(s, bytes));
  }

  lemma ApplyKeepsCurrent(s: State, op: Op)
    requires Inv(s) && CurrentOk(s) && ClockOk(s, op)
    ensures CurrentOk(Apply(s, op))
  {
    match op
    case LogMessage(_, _, _) => LogKeepsCurrent(s, op);
    case SetMaximumFileSize(size) => RollKeepsCurrent(s.(maximumFileSize := size));
    case _ =>
  }

  ghost predicate ClockForward(s: State, ops: seq<Op>)
    decreases |ops|
  {
    |ops| == 0 || (ClockOk(s, ops[0]) && ClockForward(Apply(s, ops[0]), ops[1..]))
  }

  /**
   * In every run in which each file is created later than those there, whatever the order among files
   * of one date: the file being written to exists, is not archived, is older than none, and is below
   * the maximum size. So it is never deleted.
   */
  lemma {:induction false} ActiveFileIsNewest(s: State, ops: seq<Op>)
    requires Inv(s) && CurrentOk(s) && ClockForward(s, ops)
    ensures Inv(Run(s, ops)) && CurrentOk(Run(s, ops))
    decreases |ops|
  {
    if |ops| > 0 {
      ApplyKeeps(s, ops[0]);
      ApplyKeepsCurrent(s, ops[0]);
      ActiveFileIsNewest(Apply(s, ops[0]), ops[1..]);
    }
  }

  // ----- the object

  /** The file logger with its default manager; `files` stands for the directory, which `list` lists. */
  class FileLogger {
    var files: Directory
    var nextName: nat
    var current: Option<nat>
    var open: bool
    var maximumFileSize: Word
    var rollingFrequency: int
    var doNotReuse: bool
    var maximumNumberOfLogFiles: nat
    var logFilesDiskQuota: Word

    ghost function View(): State
      reads this
    {
      State(files, nextName, current, open, maximumFileSize, rollingFrequency, doNotReuse, maximumNumberOfLogFiles,
        logFilesDiskQuota)
    }

    /** The index of the first file with which the counter exceeds the quota. */
    method FirstOverQuota(names: seq<nat>) returns (first: Option<nat>)
      requires IsListing(names, files)
      ensures first == FirstOver(Infos(files, names), logFilesDiskQuota, 0)
    {
      ghost var infos := Infos(files, names);
      var used: Word := 0;
      for i := 0 to |names|
        invariant used == Counted(infos, i)
        invariant FirstOver(infos, logFilesDiskQuota, 0) == FirstOver(infos, logFilesDiskQuota, i)
      {
        used := Plus(used, files[names[i]].size);
        if used > logFilesDiskQuota { return Some(i); }
      }
      first := None;
    }

    method DeleteOldLogFiles(list: Listing)
      modifies this`files
      ensures files == WithoutOld(old(files), list, maximumNumberOfLogFiles, logFilesDiskQuota)
    {
      var names := list(files);
      assert IsListing(names, files);
      var firstIndexToDelete: Option<nat> := None;
      if logFilesDiskQuota != 0 { firstIndexToDelete := FirstOverQuota(names); }
      if maximumNumberOfLogFiles != 0 {
        if firstIndexToDelete.None? || maximumNumberOfLogFiles <= firstIndexToDelete.value {
          firstIndexToDelete := Some(maximumNumberOfLogFiles);
        }
      }
      if firstIndexToDelete == Some(0) && |names| > 0 && !files[names[0]].archived {
        firstIndexToDelete := Some(1);
      }
      DeletesFrom(files, list, maximumNumberOfLogFiles, logFilesDiskQuota);
      if firstIndexToDelete.Some? { DeleteFrom(names, firstIndexToDelete.value); }
    }

    /** Removes the files listed from `first` on. */
    method DeleteFrom(names: seq<nat>, first: nat)
      modifies this`files
      ensures files == map n | n in old(files) && !Among(names, first, |names|, n) :: old(files)[n]
    {
      var i := first;
      while i < |names|
        invariant files == map n | n in old(files) && !Among(names, first, i, n) :: old(files)[n]
        invariant first <= i && (i <= |names| || i == first)
      {
        files := files - {names[i]};
        i := i + 1;
      }
    }

    method CreateFile(now: int, list: Listing)
      modifies this
      ensures View() == CreateNewLogFile(old(View()), now, list)
    {
      ghost var s := View();
      files := files[nextName := File(now, 0, false)];
      assert files == WithNewFile(s, now);
      DeleteOldLogFiles(list);
      current, nextName := Some(nextName), nextName + 1;
    }

    /** The first file listed. */
    method MostRecent(list: Listing) returns (name: Option<nat>)
      ensures name == if files == map[] then None else Some(Newest(files, list))
    {
      var names := list(files);
      if files != map[] { ListedFirst(list, files); }
      assert IsListing(names, files);
      if |names| > 0 { name := Some(names[0]); } else { name := None; }
    }

    method CurrentLogFileInfo(now: int, list: Listing)
      modifies this
      ensures View() == CurrentFile(old(View()), now, list)
    {
      if current.Some? { return; }
      var name := MostRecent(list);
      if name.Some? {
        var mostRecent := files[name.value];
        var shouldArchive := false;
        if mostRecent.archived {
          shouldArchive := false;
        } else if maximumFileSize > 0 && mostRecent.size >= maximumFileSize {
          shouldArchive := true;
        } else if rollingFrequency > 0 && now - mostRecent.created >= rollingFrequency {
          shouldArchive := true;
        }
        if !doNotReuse && !mostRecent.archived && !shouldArchive {
          current := name;
        } else if shouldArchive {
          files := files[name.value := mostRecent.(archived := true)];
        }
      }
      if current.None? { CreateFile(now, list); }
    }

    method RollLogFileNow()
      modifies this
      ensures View() == RollNow(old(View()))
    {
      if !open || current.None? { return; }
      files := Update(files, current.value, SizeOf(files, current.value), true);
      current, open := None, false;
    }

    method Log(bytes: Word, now: int, list: Listing)
      modifies this
      ensures View() == Apply(old(View()), LogMessage(bytes, now, list))
    {
      if !open {
        CurrentLogFileInfo(now, list);
        open := current.Some? && current.value in files;
      }
      if open && current.Some? {
        files := Update(files, current.value, Plus(SizeOf(files, current.value), bytes), false);
        if maximumFileSize > 0 && SizeOf(files, current.value) >= maximumFileSize { RollLogFileNow(); }
      }
    }
  }

  predicate Among(names: seq<nat>, from: nat, to: nat, n: nat) {
    exists j :: from <= j < to && j < |names| && names[j] == n
  }

  /** What is left is what is not listed from the first index to delete on. */
  lemma DeletesFrom(dir: Directory, list: Listing, maximum: nat, quota: Word)
    ensures
      var first := FirstToDelete(Listed(dir, list), maximum, quota);
      WithoutOld(dir, list, maximum, quota) ==
      if first.None? then dir
      else map n | n in dir && !Among(list(dir), first.value, |list(dir)|, n) :: dir[n]
  {
    var names, first := list(dir), FirstToDelete(Listed(dir, list), maximum, quota);
    assert IsListing(names, dir);
    var k := |Kept(Listed(dir, list), maximum, quota)|;
    forall n | n in dir ensures n in names[..k] <==> first.None? || !Among(names, first.value, |names|, n) {
      var p :| 0 <= p < |names| && names[p] == n;
      InPrefixIff(names, k, p);
    }
  }
}
