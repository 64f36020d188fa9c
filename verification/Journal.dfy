/** The write-ahead journal that keeps an artifact and its recorded hash in step.
    Every file operation is one action; a crash can come between any two, and a
    direct write can be torn. */
module Journals {
  import opened Envelopes

  /** An ideal SHA-256 of a file's content. */
  datatype Hash = ShaOf(content: string)

  datatype Transaction = Transaction(previous: Option<Hash>, target: Hash)

  /** A torn journal either cannot be parsed or lacks only its last line break;
      then it is readable but not exact. */
  datatype JournalFile = NoJournal | Unreadable | Journal(t: Transaction, exact: bool)

  /** One artifact: its file, the hash the manifest records, its journal, and the
      temporary and backup copies of a replacement. */
  datatype Disk = Disk(
    file: Option<string>,
    recorded: Option<Hash>,
    journal: JournalFile,
    temporary: Option<string>,
    backup: Option<string>)

  datatype FileAction =
    | WriteJournal(t: Transaction)
    | WriteTemporary(content: string)
    | MoveToBackup
    | InstallTemporary
    | RestoreBackup
    | RemoveBackup
    | RemoveTemporary
    | WriteNew(content: string)
    | RecordHash
    | RemoveJournal

  function HashOf(file: Option<string>): Option<Hash> {
    if file.Some? then Some(ShaOf(file.value)) else None
  }

  function Apply(d: Disk, a: FileAction): Disk {
    match a
    case WriteJournal(t) => d.(journal := Journal(t, true))
    case WriteTemporary(c) => d.(temporary := Some(c))
    case MoveToBackup => d.(backup := d.file, file := None)
    case InstallTemporary => d.(file := d.temporary, temporary := None)
    case RestoreBackup => d.(file := d.backup, backup := None)
    case RemoveBackup => d.(backup := None)
    case RemoveTemporary => d.(temporary := None)
    case WriteNew(c) => d.(file := Some(c))
    case RecordHash => d.(recorded := HashOf(d.file))
    case RemoveJournal => d.(journal := NoJournal)
  }

  /** What a write that a crash cuts short may leave. Renames, removals and the
      manifest's replacement are atomic. */
  predicate Torn(d: Disk, a: FileAction, d': Disk) {
    match a
    case WriteJournal(t) => d' == d.(journal := Unreadable) || d' == d.(journal := Journal(t, false))
    case WriteTemporary(_) => d'.temporary.Some? && d' == d.(temporary := d'.temporary)
    case WriteNew(c) => d'.file.Some? && d'.file != Some(c) && d' == d.(file := d'.file)
    case _ => false
  }

  function Execute(d: Disk, script: seq<FileAction>, k: nat): Disk
    requires k <= |script|
  {
    if k == 0 then d else Apply(Execute(d, script, k - 1), script[k - 1])
  }

  /** The disk after a crash that let the first `k` actions happen. */
  predicate Crashed(d: Disk, script: seq<FileAction>, k: nat, d': Disk) {
    && k <= |script|
    && (d' == Execute(d, script, k) || (k < |script| && Torn(Execute(d, script, k), script[k], d')))
  }

  // ---- Writing and recovering -----------------------------------------------------

  /** The actions of a call, and whether it returns or throws after them. */
  datatype Plan = Plan(script: seq<FileAction>, ok: bool)

  /** The file operation of a replacement that fails: the temporary's write (its name
      is taken, say), the rename to the backup, the rename into place, after which the
      backup is put back or cannot be, or the removal of the backup. */
  datatype Failure = NoFailure | AtTemporary | AtMove | AtInstall(restored: bool) | AtCleanup

  /** Replacing a file: write aside, move the old file away, install the new one. A
      file that is not there is neither moved nor kept as a backup. */
  function ReplacePlan(d: Disk, c: string, failure: Failure): Plan {
    if d.file == Some(c) then Plan([], true)
    else if failure.AtTemporary? then Plan([RemoveTemporary], false)
    else if d.file.None? then
      if failure.AtInstall? then Plan([WriteTemporary(c), RemoveTemporary], false)
      else Plan([WriteTemporary(c), InstallTemporary], true)
    else
      match failure
      case NoFailure => Plan([WriteTemporary(c), MoveToBackup, InstallTemporary, RemoveBackup], true)
      case AtMove => Plan([WriteTemporary(c), RemoveTemporary], false)
      case AtInstall(true) => Plan([WriteTemporary(c), MoveToBackup, RestoreBackup, RemoveTemporary], false)
      case AtInstall(false) => Plan([WriteTemporary(c), MoveToBackup, RemoveTemporary], false)
      case AtCleanup => Plan([WriteTemporary(c), MoveToBackup, InstallTemporary, RemoveTemporary], false)
  }

  function CreatePlan(d: Disk, c: string): Plan {
    if d.file == Some(c) then Plan([], true)
    else if d.file.Some? then Plan([], false)
    else Plan([WriteNew(c)], true)
  }

  function JournalPlan(d: Disk, t: Transaction): Plan {
    match d.journal
    case NoJournal => Plan([WriteJournal(t)], true)
    case Journal(u, exact) => Plan([], u == t && exact)
    case Unreadable => Plan([], false)
  }

  function WritePlan(d: Disk, c: string, replace: bool, failure: Failure): Plan {
    var journal := JournalPlan(d, Transaction(d.recorded, ShaOf(c)));
    if !journal.ok then journal
    else
      var body := if replace then ReplacePlan(d, c, failure) else CreatePlan(d, c);
      if body.ok then Plan(journal.script + body.script + [RecordHash, RemoveJournal], true)
      else Plan(journal.script + body.script, false)
  }

  function RecoverPlan(d: Disk): Plan {
    match d.journal
    case NoJournal => Plan([], true)
    case Unreadable => Plan([], false)
    case Journal(t, _) =>
      if d.file.None? then (if t.previous.Some? then Plan([], false) else Plan([RemoveJournal], true))
      else if ShaOf(d.file.value) == t.target then Plan([RecordHash, RemoveJournal], true)
      else if t.previous.Some? && HashOf(d.file) == t.previous == d.recorded then Plan([RemoveJournal], true)
      else Plan([], false)
  }

  // ---- Crash safety ---------------------------------------------------------------

  /** No journal, and the recorded hash is the file's. */
  predicate InStep(d: Disk) {
    d.journal.NoJournal? && d.recorded == HashOf(d.file)
  }

  /** What a caller has established when a write begins: a recovery left no journal.
      Replacing follows a check of the recorded hash, creating follows none. */
  predicate Begins(d: Disk, replace: bool) {
    d.journal.NoJournal? && (replace ==> InStep(d))
  }

  predicate IsOld(d0: Disk, d: Disk) {
    d.file == d0.file && d.recorded == d0.recorded
  }

  predicate IsNew(c: string, d: Disk) {
    d.file == Some(c) && d.recorded == Some(ShaOf(c))
  }

  /** The recorded hash is the one from before, and the file carries it. */
  predicate IsRecorded(d0: Disk, d: Disk) {
    d.recorded == d0.recorded && d.recorded == HashOf(d.file)
  }

  predicate Journaled(d0: Disk, c: string, d: Disk) {
    d.journal.Journal? && d.journal.t == Transaction(d0.recorded, ShaOf(c))
  }

  /** What a completed recovery may leave of a write of `c` over `d0`. */
  predicate Reconciled(d0: Disk, c: string, d: Disk) {
    && d.journal.NoJournal?
    && (IsOld(d0, d) || IsNew(c, d) || IsRecorded(d0, d))
  }

  /** Every disk a write of `c` over `d0`, its crashes and interrupted recoveries
      can leave. */
  predicate InFlight(d0: Disk, c: string, d: Disk) {
    || Reconciled(d0, c, d)
    || (d.journal.Unreadable? && IsOld(d0, d))
    || (Journaled(d0, c, d) && IsNew(c, d))
    || (Journaled(d0, c, d) && d.recorded == d0.recorded
        && (d.file == d0.file || d.file == Some(c)
            || (if d.file.None? then d0.recorded.Some? else d0.file.None?)))
  }

  /** Where recovery refuses: the journal is unreadable, or the file is neither the
      new one nor one that the hash recorded before the write vouches for. */
  predicate Stuck(d0: Disk, c: string, d: Disk) {
    || d.journal.Unreadable?
    || (Journaled(d0, c, d) && d.file != Some(c) && HashOf(d.file) != d0.recorded)
  }

  lemma ExecuteNext(d: Disk, s: seq<FileAction>, k: nat)
    requires k < |s|
    ensures Execute(d, s, k + 1) == Apply(Execute(d, s, k), s[k])
  {
  }

  lemma ReplaceStaysInFlight(d0: Disk, c: string, s: seq<FileAction>, k: nat, d: Disk)
    requires InStep(d0) && d0.file.Some? && d0.file != Some(c)
    requires s == [WriteJournal(Transaction(d0.recorded, ShaOf(c))), WriteTemporary(c), MoveToBackup, InstallTemporary,
                   RemoveBackup, RecordHash, RemoveJournal]
    requires Crashed(d0, s, k, d)
    ensures InFlight(d0, c, d)
    ensures Stuck(d0, c, d) <==> d.journal.Unreadable? || k == 3
    ensures IsNew(c, Execute(d0, s, 7)) && InStep(Execute(d0, s, 7))
  {
    for i := 0 to 7
      invariant Execute(d0, s, 0) == d0
      invariant forall j :: 0 <= j < i ==> Execute(d0, s, j + 1) == Apply(Execute(d0, s, j), s[j])
    {
      ExecuteNext(d0, s, i);
    }
    assert k == 0 || k == 1 || k == 2 || k == 3 || k == 4 || k == 5 || k == 6 || k == 7;
  }

  /** A replacement whose rename into place, or the removal of the backup, fails. */
  lemma FailedReplaceStaysInFlight(d0: Disk, c: string, s: seq<FileAction>, k: nat, d: Disk)
    requires InStep(d0) && d0.file.Some? && d0.file != Some(c)
    requires var w := WriteJournal(Transaction(d0.recorded, ShaOf(c)));
      || s == [w, WriteTemporary(c), MoveToBackup, RestoreBackup, RemoveTemporary]
      || s == [w, WriteTemporary(c), MoveToBackup, RemoveTemporary]
      || s == [w, WriteTemporary(c), MoveToBackup, InstallTemporary, RemoveTemporary]
    requires Crashed(d0, s, k, d)
    ensures InFlight(d0, c, d)
    ensures Stuck(d0, c, d) <==> d.journal.Unreadable? || k == 3 || (k > 3 && |s| == 4)
  {
    for i := 0 to |s|
      invariant Execute(d0, s, 0) == d0
      invariant forall j :: 0 <= j < i ==> Execute(d0, s, j + 1) == Apply(Execute(d0, s, j), s[j])
    {
      ExecuteNext(d0, s, i);
    }
    assert k == 0 || k == 1 || k == 2 || k == 3 || k == 4 || k == 5;
  }

  /** The other replacements: the file is already in place or not there yet, or the
      write gives up before it has touched the file. */
  lemma ShortReplaceStaysInFlight(d0: Disk, c: string, s: seq<FileAction>, k: nat, d: Disk)
    requires InStep(d0) && Crashed(d0, s, k, d)
    requires var w := WriteJournal(Transaction(d0.recorded, ShaOf(c)));
      || (d0.file == Some(c) && s == [w, RecordHash, RemoveJournal])
      || (d0.file.None? && s == [w, WriteTemporary(c), InstallTemporary, RecordHash, RemoveJournal])
      || s == [w, WriteTemporary(c), RemoveTemporary]
      || s == [w, RemoveTemporary]
    ensures InFlight(d0, c, d)
    ensures Stuck(d0, c, d) <==> d.journal.Unreadable?
    ensures RecordHash in s ==> IsNew(c, Execute(d0, s, |s|)) && InStep(Execute(d0, s, |s|))
  {
    for i := 0 to |s|
      invariant Execute(d0, s, 0) == d0
      invariant forall j :: 0 <= j < i ==> Execute(d0, s, j + 1) == Apply(Execute(d0, s, j), s[j])
    {
      ExecuteNext(d0, s, i);
    }
    assert k == 0 || k == 1 || k == 2 || k == 3 || k == 4 || k == 5;
  }

  /** Creating, over any file and any recorded hash. */
  lemma CreateStaysInFlight(d0: Disk, c: string, s: seq<FileAction>, k: nat, d: Disk)
    requires d0.journal.NoJournal? && Crashed(d0, s, k, d)
    requires var w := WriteJournal(Transaction(d0.recorded, ShaOf(c)));
      || (d0.file == Some(c) && s == [w, RecordHash, RemoveJournal])
      || (d0.file.None? && s == [w, WriteNew(c), RecordHash, RemoveJournal])
      || (d0.file.Some? && d0.file != Some(c) && s == [w])
    ensures InFlight(d0, c, d)
    ensures Stuck(d0, c, d) <==> RefusedCreate(d0, c, k, d)
    ensures RecordHash in s ==> IsNew(c, Execute(d0, s, |s|)) && InStep(Execute(d0, s, |s|))
  {
    for i := 0 to |s|
      invariant Execute(d0, s, 0) == d0
      invariant forall j :: 0 <= j < i ==> Execute(d0, s, j + 1) == Apply(Execute(d0, s, j), s[j])
    {
      ExecuteNext(d0, s, i);
    }
    assert k == 0 || k == 1 || k == 2 || k == 3 || k == 4;
  }

  /** The old file has been moved away and neither file is in its place. */
  predicate RefusedReplace(d0: Disk, c: string, failure: Failure, k: nat, d: Disk) {
    || d.journal.Unreadable?
    || (d0.file.Some? && d0.file != Some(c) && !failure.AtTemporary? && !failure.AtMove?
        && (k == 3 || (k > 3 && failure == AtInstall(false))))
  }

  /** The journal is written, and the file there, if any, is neither the requested one
      nor the recorded one: an earlier file, a torn new one, or a recorded one that is
      missing. */
  predicate RefusedCreate(d0: Disk, c: string, k: nat, d: Disk) {
    || d.journal.Unreadable?
    || (d.journal.Journal? && k <= 1 && d.file != Some(c) && HashOf(d.file) != d0.recorded)
  }

  /** When a write that ends early, or fails, leaves a disk that recovery refuses. */
  predicate RefusedAfter(d0: Disk, c: string, replace: bool, failure: Failure, k: nat, d: Disk) {
    if replace then RefusedReplace(d0, c, failure, k, d) else RefusedCreate(d0, c, k, d)
  }

  /** A write, cut short anywhere or failing anywhere, leaves a disk in flight; a
      write that returns leaves the new content in step. */
  lemma WriteStaysInFlight(d0: Disk, c: string, replace: bool, failure: Failure, k: nat, d: Disk)
    requires Begins(d0, replace) && Crashed(d0, WritePlan(d0, c, replace, failure).script, k, d)
    ensures InFlight(d0, c, d)
    ensures Stuck(d0, c, d) <==> RefusedAfter(d0, c, replace, failure, k, d)
    ensures var p := WritePlan(d0, c, replace, failure);
      p.ok ==> IsNew(c, Execute(d0, p.script, |p.script|)) && InStep(Execute(d0, p.script, |p.script|))
  {
    var s := WritePlan(d0, c, replace, failure).script;
    if !replace {
      CreateStaysInFlight(d0, c, s, k, d);
    } else if d0.file.None? || d0.file == Some(c) || failure.AtTemporary? || failure.AtMove? {
      ShortReplaceStaysInFlight(d0, c, s, k, d);
    } else if failure.NoFailure? {
      ReplaceStaysInFlight(d0, c, s, k, d);
    } else {
      FailedReplaceStaysInFlight(d0, c, s, k, d);
    }
  }

  /** Recovery, cut short anywhere, leaves a disk in flight. It refuses exactly where
      it is stuck, changing nothing; otherwise it leaves the old file and hash, the new
      file and hash, or a file that carries the hash recorded before. */
  lemma RecoveryReconciles(d0: Disk, c: string, d: Disk, k: nat, d': Disk)
    requires InFlight(d0, c, d) && Crashed(d, RecoverPlan(d).script, k, d')
    ensures InFlight(d0, c, d')
    ensures RecoverPlan(d).ok <==> !Stuck(d0, c, d)
    ensures !RecoverPlan(d).ok ==> d' == d
    ensures var p := RecoverPlan(d);
      p.ok ==> Reconciled(d0, c, Execute(d, p.script, |p.script|))
  {
    var s := RecoverPlan(d).script;
    for i := 0 to |s|
      invariant Execute(d, s, 0) == d
      invariant forall j :: 0 <= j < i ==> Execute(d, s, j + 1) == Apply(Execute(d, s, j), s[j])
    {
      ExecuteNext(d, s, i);
    }
    assert k == 0 || k == 1 || k == 2;
  }

  /** Over a disk that was in step, reconciled means in step again, old or new. */
  lemma ReconciledInStep(d0: Disk, c: string, d: Disk)
    requires InStep(d0) && Reconciled(d0, c, d)
    ensures InStep(d) && (IsOld(d0, d) || IsNew(c, d))
  {
    if IsRecorded(d0, d) {
      assert HashOf(d.file) == HashOf(d0.file);
    }
  }

  /** Recoveries that were themselves cut short, one after another. */
  predicate Recoveries(ds: seq<Disk>, ks: seq<nat>) {
    && |ds| == |ks| + 1
    && forall i :: 0 <= i < |ks| ==> Crashed(ds[i], RecoverPlan(ds[i]).script, ks[i], ds[i + 1])
  }

  lemma {:induction false} RecoveriesStayInFlight(d0: Disk, c: string, ds: seq<Disk>, ks: seq<nat>)
    requires Recoveries(ds, ks) && InFlight(d0, c, ds[0])
    ensures InFlight(d0, c, ds[|ks|])
    ensures Stuck(d0, c, ds[0]) ==> ds[|ks|] == ds[0]
  {
    if ks != [] {
      var n := |ks| - 1;
      RecoveriesStayInFlight(d0, c, ds[..n + 1], ks[..n]);
      RecoveryReconciles(d0, c, ds[n], ks[n], ds[n + 1]);
    }
  }

  /** Crash safety: a write is cut short or fails anywhere, then any number of
      recoveries are cut short anywhere. The next recovery reconciles, or it refuses and
      changes nothing; where the write left a refused disk, every recovery refuses it. */
  lemma CrashSafe(d0: Disk, c: string, replace: bool, failure: Failure, k: nat, ds: seq<Disk>, ks: seq<nat>)
    requires Begins(d0, replace) && Recoveries(ds, ks)
    requires Crashed(d0, WritePlan(d0, c, replace, failure).script, k, ds[0])
    ensures var p := RecoverPlan(ds[|ks|]);
      if p.ok then
        var e := Execute(ds[|ks|], p.script, |p.script|);
        Reconciled(d0, c, e) && (InStep(d0) ==> InStep(e) && (IsOld(d0, e) || IsNew(c, e)))
      else p.script == []
    ensures RefusedAfter(d0, c, replace, failure, k, ds[0]) ==> !RecoverPlan(ds[|ks|]).ok && ds[|ks|] == ds[0]
  {
    WriteStaysInFlight(d0, c, replace, failure, k, ds[0]);
    RecoveriesStayInFlight(d0, c, ds, ks);
    var p := RecoverPlan(ds[|ks|]);
    RecoveryReconciles(d0, c, ds[|ks|], 0, Execute(ds[|ks|], p.script, 0));
    if p.ok && InStep(d0) {
      ReconciledInStep(d0, c, Execute(ds[|ks|], p.script, |p.script|));
    }
  }

  /** The dispatcher registry is created without a check of its recorded hash: a file
      that is already there, unrecorded and different, makes the write fail, and the
      journal it leaves makes every later recovery refuse. No crash is involved. */
  lemma UnrecordedRegistryIsRefused()
    ensures var d0 := Disk(Some("other"), None, NoJournal, None, None);
      var p := WritePlan(d0, "wanted", false, NoFailure);
      && RecoverPlan(d0) == Plan([], true)
      && !p.ok
      && p.script == [WriteJournal(Transaction(None, ShaOf("wanted")))]
      && RecoverPlan(Execute(d0, p.script, 1)) == Plan([], false)
  {
    var d0 := Disk(Some("other"), None, NoJournal, None, None);
    var p := WritePlan(d0, "wanted", false, NoFailure);
    assert |"other"| != |"wanted"|;
    assert Execute(d0, p.script, 0) == d0;
    ExecuteNext(d0, p.script, 0);
  }

  /** Without a crash: a failed write leaves a disk that recovery refuses exactly when a
      registry is already there that neither is the requested one nor carries its
      recorded hash, or a replaced file could be neither installed nor put back. */
  lemma FailedWriteIsRefusedIff(d0: Disk, c: string, replace: bool, failure: Failure)
    requires Begins(d0, replace)
    ensures var p := WritePlan(d0, c, replace, failure);
      RecoverPlan(Execute(d0, p.script, |p.script|)).ok <==>
      || p.ok
      || (if replace then d0.file.None? || failure != AtInstall(false) else d0.recorded == HashOf(d0.file))
  {
    var p := WritePlan(d0, c, replace, failure);
    var d := Execute(d0, p.script, |p.script|);
    WriteStaysInFlight(d0, c, replace, failure, |p.script|, d);
    RecoveryReconciles(d0, c, d, 0, Execute(d, RecoverPlan(d).script, 0));
    for i := 0 to |p.script|
      invariant Execute(d0, p.script, 0) == d0
      invariant forall j ::
        0 <= j < i ==> Execute(d0, p.script, j + 1) == Apply(Execute(d0, p.script, j), p.script[j])
    {
      ExecuteNext(d0, p.script, i);
    }
  }

  // ---- The calls --------------------------------------------------------------------

  function Finished(d: Disk, p: Plan): Disk { Execute(d, p.script, |p.script|) }

  /** Recovery of any disk: the file is never touched. If it is the one the journal announces, its
      hash is recorded; if it is the one from before, and recorded as such, or if there was none
      and is none, the journal is dropped; otherwise recovery refuses and changes nothing. */
  lemma RecoverOutcome(d: Disk)
    ensures var p := RecoverPlan(d);
      var d' := Finished(d, p);
      match d.journal
      case NoJournal => p.ok && d' == d
      case Unreadable => !p.ok && d' == d
      case Journal(t, _) =>
        if d.file.Some? && ShaOf(d.file.value) == t.target then
          p.ok && d' == d.(journal := NoJournal, recorded := Some(t.target))
        else if (if d.file.Some? then t.previous == Some(ShaOf(d.file.value)) && d.recorded == t.previous else t.previous.None?)
        then p.ok && d' == d.(journal := NoJournal)
        else !p.ok && d' == d
  {
    var script := RecoverPlan(d).script;
    if |script| == 1 {
      assert Execute(d, script, 1) == Apply(Execute(d, script, 0), RemoveJournal);
    } else if |script| == 2 {
      assert Execute(d, script, 2) == Apply(Apply(Execute(d, script, 0), RecordHash), RemoveJournal);
    }
  }

  lemma {:induction false} ExecuteAppend(d: Disk, s: seq<FileAction>, t: seq<FileAction>, k: nat)
    requires k <= |s + t|
    ensures Execute(d, s + t, k) == if k <= |s| then Execute(d, s, k) else Execute(Execute(d, s, |s|), t, k - |s|)
  {
    if k > 0 {
      ExecuteAppend(d, s, t, k - 1);
    }
  }

  /** One plan after another. */
  lemma FinishedThen(d: Disk, p: Plan, q: Plan)
    ensures Finished(d, Plan(p.script + q.script, q.ok)) == Finished(Finished(d, p), q)
  {
    ExecuteAppend(d, p.script, q.script, |p.script + q.script|);
  }

  lemma FinishedShort(d: Disk, p: Plan)
    ensures |p.script| == 0 ==> Finished(d, p) == d
    ensures |p.script| == 1 ==> Finished(d, p) == Apply(d, p.script[0])
    ensures |p.script| == 2 ==> Finished(d, p) == Apply(Apply(d, p.script[0]), p.script[1])
    ensures |p.script| == 3 ==> Finished(d, p) == Apply(Apply(Apply(d, p.script[0]), p.script[1]), p.script[2])
    ensures |p.script| == 4 ==>
              Finished(d, p) == Apply(Apply(Apply(Apply(d, p.script[0]), p.script[1]), p.script[2]), p.script[3])
  {
    var s := p.script;
    for i := 0 to |s|
      invariant Execute(d, s, 0) == d
      invariant forall j :: 0 <= j < i ==> Execute(d, s, j + 1) == Apply(Execute(d, s, j), s[j])
    {
      ExecuteNext(d, s, i);
    }
  }

  lemma RecoveredHasNoJournal(d: Disk)
    ensures RecoverPlan(d).ok ==> Finished(d, RecoverPlan(d)).journal.NoJournal?
  {
    FinishedShort(d, RecoverPlan(d));
  }

  /** One artifact of the onboarding directory. */
  class ArtifactStore {
    var file: Option<string>
    var recorded: Option<Hash>
    var journal: JournalFile
    var temporary: Option<string>
    var backup: Option<string>

    ghost function Contents(): Disk
      reads this
    {
      Disk(file, recorded, journal, temporary, backup)
    }

    constructor ()
      ensures InStep(Contents()) && file.None?
    {
      file, recorded, journal, temporary, backup := None, None, NoJournal, None, None;
    }

    method WriteExactJson(c: string, failure: Failure) returns (ok: bool)
      modifies this`file, this`temporary, this`backup
      ensures var p := ReplacePlan(old(Contents()), c, failure);
        ok == p.ok && Contents() == Finished(old(Contents()), p)
    {
      FinishedShort(Contents(), ReplacePlan(Contents(), c, failure));
      if file == Some(c) {
        return true;
      }
      var movedExisting := false;
      var installed := !failure.AtTemporary?;
      if installed {
        temporary := Some(c);
        if file.Some? {
          installed := !failure.AtMove?;
          if installed {
            file, backup := None, file;
            movedExisting := true;
          }
        }
      }
      installed := installed && !failure.AtInstall?;
      if installed {
        file, temporary := temporary, None;
        if !movedExisting {
          return true;
        }
        if !failure.AtCleanup? {
          backup := None;
          return true;
        }
      }
      // The catch block: put the backup back if the file's place is empty, then clean up.
      if movedExisting && file.None? && failure == AtInstall(true) {
        file, backup := backup, None;
      }
      temporary := None;
      ok := false;
    }

    method WriteNewOrExactJson(c: string) returns (ok: bool)
      modifies this`file
      ensures var p := CreatePlan(old(Contents()), c);
        ok == p.ok && Contents() == Finished(old(Contents()), p)
    {
      FinishedShort(Contents(), CreatePlan(Contents(), c));
      if file.Some? {
        return file == Some(c);
      }
      file := Some(c);
      ok := true;
    }

    method WriteJournal(t: Transaction) returns (ok: bool)
      modifies this`journal
      ensures var p := JournalPlan(old(Contents()), t);
        ok == p.ok && Contents() == Finished(old(Contents()), p)
    {
      FinishedShort(Contents(), JournalPlan(Contents(), t));
      if !journal.NoJournal? {
        return journal == Journal(t, true);
      }
      journal := Journal(t, true);
      ok := true;
    }

    method WriteArtifactTransaction(c: string, replace: bool, failure: Failure) returns (ok: bool)
      modifies this
      ensures var p := WritePlan(old(Contents()), c, replace, failure);
        ok == p.ok && Contents() == Finished(old(Contents()), p)
    {
      var t := Transaction(recorded, ShaOf(c));
      ghost var d, j := Contents(), JournalPlan(Contents(), t);
      ghost var body := if replace then ReplacePlan(d, c, failure) else CreatePlan(d, c);
      FinishedShort(d, j);
      ok := WriteJournal(t);
      if !ok {
        return;
      }
      FinishedThen(d, j, body);
      FinishedShort(Contents(), body);
      if replace {
        ok := WriteExactJson(c, failure);
      } else {
        ok := WriteNewOrExactJson(c);
      }
      if !ok {
        return;
      }
      ghost var closing := Plan([RecordHash, RemoveJournal], true);
      FinishedThen(d, Plan(j.script + body.script, true), closing);
      FinishedShort(Contents(), closing);
      recorded := Some(ShaOf(file.value));
      journal := NoJournal;
    }

    method RecoverArtifactTransaction() returns (ok: bool)
      modifies this`recorded, this`journal
      ensures var p := RecoverPlan(old(Contents()));
        ok == p.ok && Contents() == Finished(old(Contents()), p)
    {
      FinishedShort(Contents(), RecoverPlan(Contents()));
      if journal.NoJournal? {
        return true;
      }
      if journal.Unreadable? {
        return false;
      }
      if file.None? {
        if journal.t.previous.Some? {
          return false;
        }
        journal := NoJournal;
        return true;
      }
      if ShaOf(file.value) == journal.t.target {
        recorded := Some(ShaOf(file.value));
        journal := NoJournal;
        return true;
      }
      if journal.t.previous.Some? && Some(ShaOf(file.value)) == journal.t.previous && recorded == journal.t.previous {
        journal := NoJournal;
        return true;
      }
      ok := false;
    }

    /** Recovers, then answers with a file that carries its recorded hash. */
    method ReadArtifact() returns (r: Result<Option<string>>)
      modifies this`recorded, this`journal
      ensures var p := RecoverPlan(old(Contents()));
        && Contents() == Finished(old(Contents()), p)
        && (r.Ok? <==> p.ok && recorded == HashOf(file))
        && (r.Ok? ==> r.value == file)
    {
      var recovered := RecoverArtifactTransaction();
      if !recovered {
        return Err(Inconsistent);
      }
      if file.None? {
        return if recorded.Some? then Err(Inconsistent) else Ok(None);
      }
      r := if recorded == Some(ShaOf(file.value)) then Ok(file) else Err(Inconsistent);
    }

    /** `updateSettings`: the settings are read, which recovers and checks the recorded
        hash, and then replaced. A write begins only over a disk in step. */
    method UpdateSettings(c: string, failure: Failure) returns (ok: bool)
      modifies this
      ensures var e := Finished(old(Contents()), RecoverPlan(old(Contents())));
        if RecoverPlan(old(Contents())).ok && e.recorded == HashOf(e.file) then
          && Begins(e, true)
          && ok == WritePlan(e, c, true, failure).ok
          && Contents() == Finished(e, WritePlan(e, c, true, failure))
        else !ok && Contents() == e
    {
      RecoveredHasNoJournal(Contents());
      var current := ReadArtifact();
      if current.Err? {
        return false;
      }
      ok := WriteArtifactTransaction(c, true, failure);
    }

    /** `configureDispatcher`, as far as the project registry goes: reading the settings
        recovers it, but nothing compares it with its recorded hash before it is created. */
    method CreateRegistry(c: string) returns (ok: bool)
      modifies this
      ensures var e := Finished(old(Contents()), RecoverPlan(old(Contents())));
        if RecoverPlan(old(Contents())).ok then
          && Begins(e, false)
          && ok == WritePlan(e, c, false, NoFailure).ok
          && Contents() == Finished(e, WritePlan(e, c, false, NoFailure))
        else !ok && Contents() == e
    {
      RecoveredHasNoJournal(Contents());
      ok := RecoverArtifactTransaction();
      if ok {
        ok := WriteArtifactTransaction(c, false, NoFailure);
      }
    }
  }

  // ---- Two artifacts ----------------------------------------------------------------------------

  /** A refused disk stays as it is through every later recovery, interrupted or not. */
  lemma {:induction false} RefusedStays(ds: seq<Disk>, ks: seq<nat>)
    requires Recoveries(ds, ks) && !RecoverPlan(ds[0]).ok
    ensures ds[|ks|] == ds[0]
  {
    if ks != [] {
      var n := |ks| - 1;
      RefusedStays(ds[..n + 1], ks[..n]);
      assert RecoverPlan(ds[n]).script == [];
    }
  }

  /** The project registry and the settings: reading the settings recovers the registry
      first. */
  class RuntimeSettings {
    const registry: ArtifactStore
    const settings: ArtifactStore

    constructor ()
      ensures fresh(registry) && fresh(settings) && registry != settings
      ensures InStep(registry.Contents()) && InStep(settings.Contents())
    {
      registry := new ArtifactStore();
      settings := new ArtifactStore();
    }

    /** Whether the settings can be read. */
    ghost predicate Readable()
      reads registry, settings
    {
      var e := Finished(settings.Contents(), RecoverPlan(settings.Contents()));
      RecoverPlan(registry.Contents()).ok && RecoverPlan(settings.Contents()).ok && e.recorded == HashOf(e.file)
    }

    /** A registry that recovery refuses makes every read of the settings fail, and the read
        leaves both as they are: from then on no settings are read or changed. */
    method ReadRuntimeSettings() returns (r: Result<Option<string>>)
      requires registry != settings
      modifies registry`recorded, registry`journal, settings`recorded, settings`journal
      ensures r.Ok? <==> old(Readable())
      ensures r.Ok? ==> r.value == settings.file
      ensures r.Ok? ==> InStep(settings.Contents()) && registry.journal.NoJournal?
      ensures !old(RecoverPlan(registry.Contents()).ok) ==>
                registry.Contents() == old(registry.Contents()) && settings.Contents() == old(settings.Contents())
      ensures registry.Contents() == old(Finished(registry.Contents(), RecoverPlan(registry.Contents())))
    {
      RecoveredHasNoJournal(registry.Contents());
      RecoveredHasNoJournal(settings.Contents());
      FinishedShort(registry.Contents(), RecoverPlan(registry.Contents()));
      var recovered := registry.RecoverArtifactTransaction();
      if !recovered {
        return Err(Inconsistent);
      }
      r := settings.ReadArtifact();
    }

    /** Where the settings name no dispatcher yet: the registry is created, then the settings
        are replaced. If another, unrecorded registry is in the way the call fails, and
        afterwards the settings cannot be read. */
    method ConfigureDispatcher(projects: string, updated: string, failure: Failure) returns (ok: bool)
      requires registry != settings
      modifies registry, settings
      ensures !old(Readable()) ==> !ok
      ensures var e := old(Finished(registry.Contents(), RecoverPlan(registry.Contents())));
        old(Readable()) && e.file.Some? && e.file != Some(projects) && e.recorded != HashOf(e.file) ==>
          !ok && !Readable() && settings.file == old(settings.file)
      ensures ok ==> Readable() && IsNew(projects, registry.Contents()) && IsNew(updated, settings.Contents())
    {
      var current := ReadRuntimeSettings();
      if current.Err? {
        return false;
      }
      ghost var e := registry.Contents();
      FailedWriteIsRefusedIff(e, projects, false, NoFailure);
      CompletedWriteIsNew(e, projects, false, NoFailure);
      ok := registry.WriteArtifactTransaction(projects, false, NoFailure);
      if !ok {
        return;
      }
      var again := ReadRuntimeSettings();
      if again.Err? {
        return false;
      }
      FinishedShort(registry.Contents(), RecoverPlan(registry.Contents()));
      CompletedWriteIsNew(settings.Contents(), updated, true, failure);
      ok := settings.WriteArtifactTransaction(updated, true, failure);
      FinishedShort(settings.Contents(), RecoverPlan(settings.Contents()));
    }
  }

  lemma CompletedWriteIsNew(d: Disk, c: string, replace: bool, failure: Failure)
    requires Begins(d, replace)
    ensures var p := WritePlan(d, c, replace, failure);
      p.ok ==> IsNew(c, Finished(d, p)) && InStep(Finished(d, p))
    ensures var p := WritePlan(d, c, replace, failure); !p.ok && !replace ==> Finished(d, p).file == d.file
  {
    var p := WritePlan(d, c, replace, failure);
    WriteStaysInFlight(d, c, replace, failure, |p.script|, Finished(d, p));
    FinishedShort(d, p);
  }
}
