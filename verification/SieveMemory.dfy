/**
 * The memory governor inside the sieve: when the books balance, when amounts stay
 * above zero, and when a group is charged twice.
 */
module SieveMemory {
  import opened Common
  import opened SieveState
  import opened SieveInvariant
  import opened SievePush
  import opened SieveSteps
  import opened SieveRun
  import MemoryBank

  /** The step gives memory to a group. */
  predicate IsGrant(env: Env, s: State, step: Step) {
    step.Decide? && GrantedNow(env, s, step.f)
  }

  /**
   * The window: the step gives memory to a group while its parent's account was
   * credited to the bank and is not empty.
   */
  predicate InWindow(env: Env, s: State, step: Step) {
    && IsGrant(env, s, step)
    && var parent := s.groups[AskedFor(env, s, step.f)].parent;
    && parent.Some?
    && !s.bank.accounts[parent.value].isActive
    && s.bank.accounts[parent.value].allocation > 0
  }

  /** In the window, and the account is zeroed before it is debited. */
  predicate Tears(env: Env, s: State, step: Step) {
    InWindow(env, s, step) && step.tear.BeforeDebit?
  }

  /** The step gives memory to a group that got its memory already. */
  predicate ChargesTwice(env: Env, s: State, step: Step) {
    IsGrant(env, s, step) && s.groups[AskedFor(env, s, step.f)].status == Hashing
  }

  /** What a step does to the three kinds of irregularity. */
  ghost predicate Booked(a: MemoryBank.Bank, b: MemoryBank.Bank, leaks: bool, doubles: bool, tears: bool) {
    && b.leaked >= a.leaked && (b.leaked == a.leaked <==> !leaks)
    && b.phantoms >= a.phantoms && (b.phantoms == a.phantoms <==> !doubles)
    && (MemoryBank.AllNonNegative(b.accounts) <==> MemoryBank.AllNonNegative(a.accounts) && !tears)
  }

  /** A group that asks is live and hashes, and so does its parent as long as its account is in use. */
  lemma AskingGroup(env: Env, s: State, f: FileId)
    requires f < |s.files| && (s.files[f].loc.Asking? || s.files[f].loc.Pushing?) && s.started
    requires WellFormed(env, s) && Inv(env, s)
    ensures var g := AskedFor(env, s, f);
      && g < |s.groups| && s.groups[g].stage == Live && IsHashing(s.groups[g].status)
      && s.files[f].loc.required > 0 && env.paranoid
      && AccountLinked(s.bank.accounts[g], s.groups[g])
      && (s.groups[g].parent.Some? ==>
            AccountLinked(s.bank.accounts[s.groups[g].parent.value], s.groups[s.groups[g].parent.value]))
  {
    assert Place(env, s.files[f], env.files[f], f, s.groups);
    if s.files[f].loc.Pushing? {
      InHandFits(env, s, f);
      ChildFits(env, s, s.files[f].group, f, AskedFor(env, s, f));
    }
    assert AccountLinked(s.bank.accounts[AskedFor(env, s, f)], s.groups[AskedFor(env, s, f)]);
  }

  lemma CommitBooks(env: Env, s: State, f: FileId, tear: Tear)
    requires Enabled(env, s, Decide(f, tear)) && GrantedNow(env, s, f)
    requires WellFormed(env, s) && Inv(env, s)
    ensures var step := Decide(f, tear);
      Booked(s.bank, Commit(s, AskedFor(env, s, f), s.files[f].loc.required, tear).bank,
             InWindow(env, s, step), ChargesTwice(env, s, step), Tears(env, s, step))
  {
    AskingGroup(env, s, f);
    var g, required := AskedFor(env, s, f), s.files[f].loc.required;
    MemoryBank.ChargeBalanced(s.bank, g, s.groups[g].parent, required, tear, env.memory);
    MemoryBank.ChargeNonNegative(s.bank, g, s.groups[g].parent, required, tear);
  }

  lemma DecideBank(env: Env, s: State, f: FileId, tear: Tear)
    requires WellFormed(env, s) && f < |s.files| && (s.files[f].loc.Asking? || s.files[f].loc.Pushing?)
    ensures DecideStep(env, s, f, tear).bank ==
      if GrantedNow(env, s, f) then Commit(s, AskedFor(env, s, f), s.files[f].loc.required, tear).bank else s.bank
  {}

  lemma {:induction false} DiscardAllBank(env: Env, s: State, queue: seq<FileId>)
    requires |s.files| == |env.files| && forall i :: 0 <= i < |queue| ==> queue[i] < |s.files|
    ensures DiscardAll(env, s, queue).bank == s.bank && DiscardAll(env, s, queue).groups == s.groups
    decreases |queue|
  {
    if queue != [] { DiscardAllBank(env, Discard(env, s, queue[0], Done), queue[1..]); }
  }

  lemma FreeBank(env: Env, s: State, g: GroupId)
    requires g < |s.groups| && |s.files| == |env.files| && HeldInRange(s.files, s.groups)
    ensures FreeGroup(env, s, g).bank == s.bank
    ensures FreeGroup(env, s, g).groups == s.groups[g := s.groups[g].(stage := Freed, held := [])]
  {
    DiscardAllBank(env, SetGroup(s, g, s.groups[g].(stage := Freed, held := [])), s.groups[g].held);
  }

  lemma SiftBank(env: Env, s: State, f: FileId, ok: bool)
    requires WellFormed(env, s) && f < |s.files| && s.files[f].loc != Fresh
    ensures SiftStep(env, s, f, ok).bank in {s.bank, MemoryBank.Open(s.bank)}
  {}

  lemma AdmitBank(env: Env, s: State, f: FileId)
    requires WellFormed(env, s) && Enabled(env, s, Admit(f))
    ensures AdmitStep(env, s, f).bank in {s.bank, MemoryBank.Open(s.bank)}
  {}

  lemma OpenNonNegative(b: MemoryBank.Bank)
    ensures Booked(b, MemoryBank.Open(b), false, false, false)
  {
    var b' := MemoryBank.Open(b);
    if MemoryBank.AllNonNegative(b'.accounts) {
      forall g | 0 <= g < |b.accounts| ensures b.accounts[g].allocation >= 0 {
        assert b'.accounts[g].allocation >= 0;
      }
    }
  }

  /** Returning and clearing accounts does not hide a negative amount. */
  lemma GivingBackBooks(env: Env, s: State, g: GroupId)
    requires WellFormed(env, s) && Inv(env, s) && g < |s.groups| && s.groups[g].stage in {Finalising, Returned}
    ensures Booked(s.bank, MemoryBank.ReturnLocked(s.bank, g), false, false, false)
    ensures Booked(s.bank, MemoryBank.Clear(s.bank, g), false, false, false)
  {
    assert AccountLinked(s.bank.accounts[g], s.groups[g]);
    forall b | b in {MemoryBank.ReturnLocked(s.bank, g), MemoryBank.Clear(s.bank, g)}
      && MemoryBank.AllNonNegative(b.accounts)
      ensures MemoryBank.AllNonNegative(s.bank.accounts)
    {
      forall h | 0 <= h < |s.bank.accounts| ensures s.bank.accounts[h].allocation >= 0 {
        assert b.accounts[h].allocation >= 0;
      }
    }
  }

  lemma OtherBank(env: Env, s: State, step: Step)
    requires Enabled(env, s, step)
    requires step in {Close, Launch, Count} || step.Ask? || step.Plan? || step.Register? || step.Size? || step.Read?
             || step.Orphan?
    requires WellFormed(env, s)
    ensures Apply(env, s, step).bank == s.bank
  {}

  /** The steps that only open accounts. */
  lemma PlainBank(env: Env, s: State, step: Step)
    requires Enabled(env, s, step) && !step.Decide? && !step.ReturnMemory? && !step.Clear?
    requires WellFormed(env, s)
    ensures Apply(env, s, step).bank in {s.bank, MemoryBank.Open(s.bank)}
  {
    if step.Admit? {
      AdmitBank(env, s, step.f);
    } else if step.Sift? {
      SiftBank(env, s, step.f, s.files[step.f].loc.ok);
    } else if step.Abort? {
      SiftBank(env, s, step.f, false);
    } else if step.Dispose? || step.Report? {
      FreeBank(env, s, step.g);
    } else {
      OtherBank(env, s, step);
    }
  }

  lemma PlainBooks(env: Env, s: State, step: Step)
    requires Enabled(env, s, step) && !step.Decide?
    requires WellFormed(env, s) && Inv(env, s)
    ensures Booked(s.bank, Apply(env, s, step).bank, false, false, false)
  {
    OpenNonNegative(s.bank);
    if step.ReturnMemory? || step.Clear? {
      GivingBackBooks(env, s, step.g);
    } else {
      PlainBank(env, s, step);
    }
  }

  /**
   * A step creates memory out of nothing exactly in the window, makes a phantom
   * exactly by charging a group twice, and makes an amount negative exactly by tearing.
   */
  lemma StepBooks(env: Env, s: State, step: Step)
    requires Enabled(env, s, step)
    requires WellFormed(env, s) && Inv(env, s)
    ensures Booked(s.bank, Apply(env, s, step).bank,
                   InWindow(env, s, step), ChargesTwice(env, s, step), Tears(env, s, step))
  {
    if step.Decide? {
      DecideBank(env, s, step.f, step.tear);
      if GrantedNow(env, s, step.f) { CommitBooks(env, s, step.f, step.tear); }
    } else {
      PlainBooks(env, s, step);
    }
  }

  /** Irregularities add up: there is one if and only if some step made one. */
  lemma {:induction false} BooksAddUp(banks: seq<MemoryBank.Bank>, leaks: seq<bool>, doubles: seq<bool>,
                                      tears: seq<bool>, i: nat)
    requires i < |banks| && |leaks| == |doubles| == |tears| == |banks| - 1
    requires banks[0].leaked == 0 && banks[0].phantoms == 0 && banks[0].accounts == []
    requires forall j :: 0 <= j < i ==> Booked(banks[j], banks[j + 1], leaks[j], doubles[j], tears[j])
    ensures banks[i].leaked >= 0
    ensures banks[i].leaked == 0 <==> forall j :: 0 <= j < i ==> !leaks[j]
    ensures banks[i].phantoms == 0 <==> forall j :: 0 <= j < i ==> !doubles[j]
    ensures MemoryBank.AllNonNegative(banks[i].accounts) <==> forall j :: 0 <= j < i ==> !tears[j]
  {
    if i > 0 {
      BooksAddUp(banks, leaks, doubles, tears, i - 1);
      assert Booked(banks[i - 1], banks[i - 1 + 1], leaks[i - 1], doubles[i - 1], tears[i - 1]);
    }
  }

  lemma RunStepBooks(env: Env, run: seq<State>, steps: seq<Step>, j: nat)
    requires IsRun(env, run, steps) && j < |steps|
    requires Sane(env)
    ensures Booked(run[j].bank, run[j + 1].bank,
                   InWindow(env, run[j], steps[j]), ChargesTwice(env, run[j], steps[j]), Tears(env, run[j], steps[j]))
  {
    RunInv(env, run, steps, j);
    assert Joined(env, run[j], steps[j], run[j + 1]);
    StepBooks(env, run[j], steps[j]);
  }

  ghost function Leaks(env: Env, run: seq<State>, steps: seq<Step>): (r: seq<bool>)
    requires |run| == |steps| + 1
  {
    seq(|steps|, j requires 0 <= j < |steps| => InWindow(env, run[j], steps[j]))
  }

  ghost function Doubles(env: Env, run: seq<State>, steps: seq<Step>): (r: seq<bool>)
    requires |run| == |steps| + 1
  {
    seq(|steps|, j requires 0 <= j < |steps| => ChargesTwice(env, run[j], steps[j]))
  }

  ghost function Torn(env: Env, run: seq<State>, steps: seq<Step>): (r: seq<bool>)
    requires |run| == |steps| + 1
  {
    seq(|steps|, j requires 0 <= j < |steps| => Tears(env, run[j], steps[j]))
  }

  /** The same of a run: irregular exactly if one of its steps was. */
  lemma RunBooks(env: Env, run: seq<State>, steps: seq<Step>, i: nat)
    requires IsRun(env, run, steps) && i < |run|
    requires Sane(env)
    ensures run[i].bank.leaked >= 0
    ensures run[i].bank.leaked == 0 <==> forall j :: 0 <= j < i ==> !Leaks(env, run, steps)[j]
    ensures run[i].bank.phantoms == 0 <==> forall j :: 0 <= j < i ==> !Doubles(env, run, steps)[j]
    ensures MemoryBank.AllNonNegative(run[i].bank.accounts) <==> forall j :: 0 <= j < i ==> !Torn(env, run, steps)[j]
  {
    var banks := seq(|run|, j requires 0 <= j < |run| => run[j].bank);
    var leaks, doubles, tears := Leaks(env, run, steps), Doubles(env, run, steps), Torn(env, run, steps);
    forall j | 0 <= j < i ensures Booked(banks[j], banks[j + 1], leaks[j], doubles[j], tears[j]) {
      RunStepBooks(env, run, steps, j);
    }
    BooksAddUp(banks, leaks, doubles, tears, i);
  }

  /**
   * The bank and the accounts of the active groups together hold what the bank
   * started with if and only if no step of the run fell into the window; all amounts
   * are non-negative if and only if none tore; and `activeGroups` counts the active
   * groups if and only if none charged a group twice.  The bank itself is never negative.
   */
  lemma BankConserved(env: Env, run: seq<State>, steps: seq<Step>, i: nat)
    requires IsRun(env, run, steps) && i < |run|
    requires Sane(env)
    ensures var b := run[i].bank;
      && b.available >= 0
      && (b.available + MemoryBank.Allocated(b.accounts) == env.memory <==>
          forall j :: 0 <= j < i ==> !Leaks(env, run, steps)[j])
      && (MemoryBank.AllNonNegative(b.accounts) <==> forall j :: 0 <= j < i ==> !Torn(env, run, steps)[j])
      && (b.activeGroups == MemoryBank.ActiveCount(b.accounts) <==>
          forall j :: 0 <= j < i ==> !Doubles(env, run, steps)[j])
  {
    RunInv(env, run, steps, i);
    RunBooks(env, run, steps, i);
  }

  // ----- charged once -----

  /** No other group's account ever gains, and a torn debit only takes from what was given back. */
  lemma ChargeShrinks(b: MemoryBank.Bank, g: nat, parent: Option<nat>, required: int, tear: Tear, h: nat)
    requires g < |b.accounts| && h < |b.accounts| && h != g
    requires parent.Some? ==> parent.value < |b.accounts|
    requires tear != MemoryBank.Whole ==> MemoryBank.Inherited(b, parent) >= 0
    ensures MemoryBank.Charge(b, g, parent, required, tear).accounts[h].allocation <= b.accounts[h].allocation
  {}

  /** A committed group stays committed, and its account does not grow. */
  ghost predicate OnlyShrinks(s: State, t: State, h: GroupId)
    requires h < |s.groups| == |s.bank.accounts|
  {
    && h < |t.groups| == |t.bank.accounts|
    && t.groups[h].status == Hashing
    && t.bank.accounts[h].allocation <= s.bank.accounts[h].allocation
  }

  lemma CommitOnce(env: Env, s: State, f: FileId, tear: Tear, h: GroupId)
    requires Enabled(env, s, Decide(f, tear)) && GrantedNow(env, s, f)
    requires h < |s.groups| && s.groups[h].status == Hashing && h != AskedFor(env, s, f)
    requires WellFormed(env, s) && Inv(env, s)
    ensures OnlyShrinks(s, Commit(s, AskedFor(env, s, f), s.files[f].loc.required, tear), h)
  {
    AskingGroup(env, s, f);
    var g := AskedFor(env, s, f);
    ChargeShrinks(s.bank, g, s.groups[g].parent, s.files[f].loc.required, tear, h);
  }

  lemma SendDownOnce(env: Env, s: State, g: GroupId, c: GroupId, f: FileId, h: GroupId)
    requires g < |s.groups| && c < |s.groups| == |s.bank.accounts| && f < |s.files|
    requires h < |s.groups| && s.groups[h].status == Hashing
    ensures OnlyShrinks(s, SendDown(s, g, c, f), h)
  {}

  lemma DecideOnce(env: Env, s: State, f: FileId, tear: Tear, h: GroupId)
    requires Enabled(env, s, Decide(f, tear))
    requires h < |s.groups| && s.groups[h].status == Hashing
    requires !(ChargesTwice(env, s, Decide(f, tear)) && AskedFor(env, s, f) == h)
    requires WellFormed(env, s) && Inv(env, s)
    ensures OnlyShrinks(s, DecideStep(env, s, f, tear), h)
  {
    if GrantedNow(env, s, f) { CommitOnce(env, s, f, tear, h); }
    if s.files[f].loc.Pushing? {
      var c := AskedFor(env, s, f);
      var t := if GrantedNow(env, s, f) then Commit(s, c, s.files[f].loc.required, tear) else s;
      SendDownOnce(env, t, s.files[f].group, c, f, h);
    }
  }

  lemma ChildOnce(env: Env, s: State, g: GroupId, f: FileId, h: GroupId)
    requires g < |s.groups| && f < |s.files|
    requires h < |s.groups| && s.groups[h].status == Hashing
    requires WellFormed(env, s)
    ensures OnlyShrinks(s, ChildFor(env, s, g, f).0, h)
  {}

  lemma PushOnce(env: Env, s: State, g: GroupId, f: FileId, h: GroupId)
    requires g < |s.groups| == |s.bank.accounts| && f < |s.files| == |env.files|
    requires h < |s.groups| && s.groups[h].status == Hashing
    ensures OnlyShrinks(s, Push(env, s, g, f), h)
  {}

  lemma BeginPushOnce(env: Env, s: State, g: GroupId, f: FileId, h: GroupId)
    requires g < |s.groups| == |s.bank.accounts| && f < |s.files| == |env.files| && Asks(env, s.groups[g], f)
    requires h < |s.groups| && s.groups[h].status == Hashing
    ensures OnlyShrinks(s, BeginPush(env, s, g, f), h)
  {}

  lemma PushDownOnce(env: Env, s: State, g: GroupId, c: GroupId, f: FileId, h: GroupId)
    requires g < |s.groups| && c < |s.groups| == |s.bank.accounts| && f < |s.files| == |env.files|
    requires h < |s.groups| && s.groups[h].status == Hashing
    ensures OnlyShrinks(s, PushDown(env, s, g, c, f), h)
  {
    PushOnce(env, Unpend(s, g, f), c, f, h);
  }

  lemma GiveUpOnce(env: Env, s: State, g: GroupId, f: FileId, h: GroupId)
    requires g < |s.groups| == |s.bank.accounts| && f < |s.files| == |env.files|
    requires h < |s.groups| && s.groups[h].status == Hashing
    ensures OnlyShrinks(s, GiveUp(env, s, g, f), h)
  {}

  lemma SiftOnce(env: Env, s: State, f: FileId, ok: bool, h: GroupId)
    requires f < |s.files| && s.files[f].loc != Fresh
    requires h < |s.groups| && s.groups[h].status == Hashing
    requires WellFormed(env, s)
    ensures OnlyShrinks(s, SiftStep(env, s, f, ok), h)
  {
    var g := s.files[f].group;
    if ok {
      var (v, c) := ChildFor(env, s, g, f);
      ChildOnce(env, s, g, f, h);
      if Asks(env, v.groups[c], f) {
        BeginPushOnce(env, v, c, f, h);
      } else {
        PushDownOnce(env, v, g, c, f, h);
      }
    } else {
      GiveUpOnce(env, s, g, f, h);
    }
  }

  lemma FreeOnce(env: Env, s: State, g: GroupId, h: GroupId)
    requires g < |s.groups| && |s.files| == |env.files| && HeldInRange(s.files, s.groups)
    requires h < |s.groups| == |s.bank.accounts| && s.groups[h].status == Hashing
    ensures OnlyShrinks(s, FreeGroup(env, s, g), h)
  {
    FreeBank(env, s, g);
  }

  lemma OtherOnce(env: Env, s: State, step: Step, h: GroupId)
    requires Enabled(env, s, step)
    requires h < |s.groups| && s.groups[h].status == Hashing
    requires step in {Close, Launch, Count} || step.Plan? || step.Register? || step.Size? || step.Read?
             || step.Orphan? || step.ReturnMemory?
    requires WellFormed(env, s)
    ensures OnlyShrinks(s, Apply(env, s, step), h)
  {}

  lemma AskOnce(env: Env, s: State, f: FileId, count: nat, h: GroupId)
    requires Enabled(env, s, Ask(f, count))
    requires h < |s.groups| && s.groups[h].status == Hashing
    requires WellFormed(env, s)
    ensures OnlyShrinks(s, AskStep(env, s, f, count), h)
  {
    if s.files[f].loc == Entering { SendDownOnce(env, s, s.files[f].group, AskedFor(env, s, f), f, h); }
  }

  lemma AdmitOnce(env: Env, s: State, f: FileId, h: GroupId)
    requires Enabled(env, s, Admit(f))
    requires h < |s.groups| && s.groups[h].status == Hashing
    requires WellFormed(env, s)
    ensures OnlyShrinks(s, AdmitStep(env, s, f), h)
  {
    if s.open.Some? {
      PushOnce(env, Enter(env, s, f, s.open.value), s.open.value, f, h);
    } else {
      var g := |s.groups|;
      PushOnce(env, Enter(env, AppendGroup(s, NewGroup(env, s, f, None, 0)).(open := Some(g)), f, g), g, f, h);
    }
  }

  /**
   * A group that was charged stays committed, and from then on its account only
   * shrinks, unless a step charges that very group a second time.
   */
  lemma ChargedOnce(env: Env, s: State, step: Step, h: GroupId)
    requires Enabled(env, s, step)
    requires h < |s.groups| && s.groups[h].status == Hashing
    requires !(ChargesTwice(env, s, step) && AskedFor(env, s, step.f) == h)
    requires WellFormed(env, s) && Inv(env, s)
    ensures OnlyShrinks(s, Apply(env, s, step), h)
  {
    match step {
      case Admit(f) => AdmitOnce(env, s, f, h);
      case Ask(f, count) => AskOnce(env, s, f, count, h);
      case Decide(f, tear) => DecideOnce(env, s, f, tear, h);
      case Sift(f) => SiftOnce(env, s, f, s.files[f].loc.ok, h);
      case Abort(f) => SiftOnce(env, s, f, false, h);
      case Clear(g) => assert AccountLinked(s.bank.accounts[g], s.groups[g]);
      case Dispose(g) => assert GroupShape(env, s.groups, g); FreeOnce(env, s, g, h);
      case Report(g) => FreeOnce(env, s, g, h);
      case _ => OtherOnce(env, s, step, h);
    }
  }
}
