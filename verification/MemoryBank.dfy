/**
 * The memory governor of paranoid hashing (lib/shredder.c:535-647).
 *
 * Every shred group has an account; the tag holds the bank.  Granting a
 * request moves memory from the parent's account and from the bank into the
 * group's account.  Returning it takes two steps in the source: the bank is
 * credited under the mutex, and the account is zeroed after the unlock.
 */
module MemoryBank {
  import opened Common

  datatype Account = Account(isActive: bool, allocation: int)

  /**
   * The last two fields are bookkeeping of this model alone: `leaked` are the bytes
   * that were taken out of an account whose content had already been credited to
   * the bank, and `phantoms` counts the grants to groups that were active already.
   */
  datatype Bank = Bank(available: int, activeGroups: int, accounts: seq<Account>, leaked: int, phantoms: nat)

  function Open(b: Bank): Bank {
    b.(accounts := b.accounts + [Account(false, 0)])
  }

  function Inherited(b: Bank, parent: Option<nat>): int
    requires parent.Some? ==> parent.value < |b.accounts|
  {
    match parent case Some(p) => b.accounts[p].allocation case None => 0
  }

  /** Whether a request of `required` bytes is granted. */
  predicate Grants(b: Bank, parent: Option<nat>, required: int, threshold: int)
    requires parent.Some? ==> parent.value < |b.accounts|
  {
    required <= b.available + Inherited(b, parent) || b.activeGroups <= threshold
  }

  /** What a granted request takes from the parent's account. */
  function Taken(b: Bank, parent: Option<nat>, required: int): int
    requires parent.Some? ==> parent.value < |b.accounts|
  {
    Max(Min(Inherited(b, parent), required), 0)
  }

  /** What it takes from the bank. */
  function Borrowed(b: Bank, parent: Option<nat>, required: int): int
    requires parent.Some? ==> parent.value < |b.accounts|
  {
    Min(required - Min(Inherited(b, parent), required), b.available)
  }

  /**
   * Where in a grant another thread zeroes the parent's account, if it does: between
   * the reading of the inherited amount and the debit, or inside of the debit, which
   * then writes back what it read before.
   */
  datatype Tear = Whole | BeforeDebit | InsideDebit

  /** The accounts after the debit, which only happens if something is taken. */
  function Debited(accounts: seq<Account>, parent: Option<nat>, taken: int, tear: Tear): seq<Account>
    requires parent.Some? ==> parent.value < |accounts|
  {
    match parent
    case Some(p) =>
      var zeroed := tear.BeforeDebit? || (tear.InsideDebit? && taken <= 0);
      accounts[p := accounts[p].(allocation := (if zeroed then 0 else accounts[p].allocation) - taken)]
    case None => accounts
  }

  /** A granted request: first from the parent's account, the rest from the bank. */
  function Charge(b: Bank, g: nat, parent: Option<nat>, required: int, tear: Tear): (b': Bank)
    requires g < |b.accounts|
    requires parent.Some? ==> parent.value < |b.accounts|
    ensures |b'.accounts| == |b.accounts|
  {
    var taken, borrowed := Taken(b, parent, required), Borrowed(b, parent, required);
    var debited := Debited(b.accounts, parent, taken, tear);
    b.(available := b.available - borrowed,
       activeGroups := b.activeGroups + 1,
       accounts := debited[g := Account(true, debited[g].allocation + taken + borrowed)],
       leaked := b.leaked + (if StaleParent(b, parent) then taken else 0),
       phantoms := b.phantoms + (if b.accounts[g].isActive then 1 else 0))
  }

  /** The parent's account was credited to the bank. */
  predicate StaleParent(b: Bank, parent: Option<nat>)
    requires parent.Some? ==> parent.value < |b.accounts|
  {
    parent.Some? && !b.accounts[parent.value].isActive
  }

  /** The part of `rm_shred_mem_return` that runs under the mutex. */
  function ReturnLocked(b: Bank, g: nat): Bank
    requires g < |b.accounts|
  {
    if b.accounts[g].isActive then
      b.(available := b.available + b.accounts[g].allocation,
         activeGroups := b.activeGroups - 1,
         accounts := b.accounts[g := b.accounts[g].(isActive := false)])
    else b
  }

  /** The assignment after the unlock. */
  function Clear(b: Bank, g: nat): Bank
    requires g < |b.accounts|
  {
    b.(accounts := b.accounts[g := b.accounts[g].(allocation := 0)])
  }

  function Allocated(accounts: seq<Account>): int {
    if accounts == [] then 0
    else Allocated(accounts[..|accounts|-1]) +
         var a := accounts[|accounts|-1]; if a.isActive then a.allocation else 0
  }

  function ActiveCount(accounts: seq<Account>): nat {
    if accounts == [] then 0
    else ActiveCount(accounts[..|accounts|-1]) + if accounts[|accounts|-1].isActive then 1 else 0
  }

  /**
   * Bank and active accounts together hold `total` plus whatever leaked, and the
   * count of active groups is right but for the phantoms.
   */
  ghost predicate Balanced(b: Bank, total: nat) {
    && b.available >= 0
    && b.leaked >= 0
    && b.available + Allocated(b.accounts) == total + b.leaked
    && b.activeGroups == ActiveCount(b.accounts) + b.phantoms
  }

  ghost predicate AllNonNegative(accounts: seq<Account>) {
    forall g :: 0 <= g < |accounts| ==> accounts[g].allocation >= 0
  }

  lemma {:induction false} SetAccount(accounts: seq<Account>, g: nat, a: Account)
    requires g < |accounts|
    ensures Allocated(accounts[g := a]) - (if a.isActive then a.allocation else 0)
         == Allocated(accounts) - (if accounts[g].isActive then accounts[g].allocation else 0)
    ensures ActiveCount(accounts[g := a]) - (if a.isActive then 1 else 0)
         == ActiveCount(accounts) - (if accounts[g].isActive then 1 else 0)
  {
    var n := |accounts| - 1;
    if g == n {
      assert accounts[g := a][..n] == accounts[..n];
    } else {
      assert accounts[g := a][..n] == accounts[..n][g := a];
      SetAccount(accounts[..n], g, a);
    }
  }

  lemma OpenBalanced(b: Bank, total: nat)
    requires Balanced(b, total)
    ensures Balanced(Open(b), total)
  {
    assert Open(b).accounts[..|b.accounts|] == b.accounts;
  }

  /**
   * Granting keeps the books.  It creates memory out of nothing exactly when the
   * parent was credited already and there is something left to inherit; it makes a
   * phantom exactly when the group is active already; and it takes at most what is
   * required exactly when the inheritance is not negative or the bank has no more.
   */
  lemma ChargeBalanced(b: Bank, g: nat, parent: Option<nat>, required: nat, tear: Tear, total: nat)
    requires Balanced(b, total) && g < |b.accounts|
    requires b.accounts[g].isActive || b.accounts[g].allocation == 0
    requires parent.Some? ==> parent.value < |b.accounts| && parent.value != g
    requires tear != Whole ==> StaleParent(b, parent)
    ensures var b' := Charge(b, g, parent, required, tear);
      var gain := b'.accounts[g].allocation - b.accounts[g].allocation;
      && Balanced(b', total)
      && gain >= 0
      && (gain <= required <==> Inherited(b, parent) >= 0 || b.available <= required)
      && b'.leaked >= b.leaked
      && (b'.leaked == b.leaked <==>
          !(StaleParent(b, parent) && Inherited(b, parent) > 0 && required > 0))
      && b'.phantoms >= b.phantoms
      && (b'.phantoms == b.phantoms <==> !b.accounts[g].isActive)
  {
    var taken, borrowed := Taken(b, parent, required), Borrowed(b, parent, required);
    var debited := Debited(b.accounts, parent, taken, tear);
    if parent.Some? { SetAccount(b.accounts, parent.value, debited[parent.value]); }
    SetAccount(debited, g, Account(true, debited[g].allocation + taken + borrowed));
  }

  /**
   * What a group gets is first taken from its parent's account, then from the bank: all it asks for, or if that
   * is not there, all there is.  If the parent's account is zeroed meanwhile, that is all the same taken from it:
   * it ends below zero, or, if the zero is overwritten in the middle of the debit, as if it had not been zeroed.
   */
  lemma ChargePays(b: Bank, g: nat, parent: Option<nat>, required: nat, tear: Tear)
    requires b.available >= 0 && g < |b.accounts|
    requires parent.Some? ==>
      parent.value < |b.accounts| && parent.value != g && b.accounts[parent.value].allocation >= 0
    ensures var b' := Charge(b, g, parent, required, tear);
      var mine := match parent case Some(p) => b.accounts[p].allocation case None => 0;
      var taken := Min(mine, required);
      && b'.accounts[g] == Account(true, b.accounts[g].allocation + Min(required, mine + b.available))
      && (parent.Some? ==>
            b'.accounts[parent.value].allocation ==
            match tear
            case Whole => mine - taken
            case BeforeDebit => 0 - taken
            case InsideDebit => if taken > 0 then mine - taken else 0)
      && b'.available == Max(b.available - (required - taken), 0)
      && b'.activeGroups == b.activeGroups + 1
      && forall h :: 0 <= h < |b.accounts| && h != g && parent != Some(h) ==> b'.accounts[h] == b.accounts[h]
  {}

  /** A request is granted if and only if it is paid in full, or few groups are active. */
  lemma GrantedIffPaid(b: Bank, g: nat, parent: Option<nat>, required: nat, threshold: int)
    requires b.available >= 0 && g < |b.accounts|
    requires parent.Some? ==>
      parent.value < |b.accounts| && parent.value != g && b.accounts[parent.value].allocation >= 0
    ensures Grants(b, parent, required, threshold) <==>
      || Charge(b, g, parent, required, Whole).accounts[g].allocation == b.accounts[g].allocation + required
      || b.activeGroups <= threshold
  {
    ChargePays(b, g, parent, required, Whole);
  }

  /** An amount becomes negative exactly if an account that something is taken from is zeroed before the debit. */
  lemma ChargeNonNegative(b: Bank, g: nat, parent: Option<nat>, required: nat, tear: Tear)
    requires g < |b.accounts| && b.available >= 0 && b.accounts[g].allocation >= 0
    requires parent.Some? ==> parent.value < |b.accounts| && parent.value != g
    requires tear != Whole ==> Inherited(b, parent) >= 0
    ensures AllNonNegative(Charge(b, g, parent, required, tear).accounts) <==>
      AllNonNegative(b.accounts) && !(tear.BeforeDebit? && Inherited(b, parent) > 0 && required > 0)
  {
    var b' := Charge(b, g, parent, required, tear);
    if parent.Some? {
      var p := parent.value;
      assert b'.accounts[p].allocation
          == Debited(b.accounts, parent, Taken(b, parent, required), tear)[p].allocation;
    } else if tear.BeforeDebit? {
      assert Inherited(b, parent) == 0;
    }
    if AllNonNegative(b'.accounts) {
      forall h | 0 <= h < |b.accounts| ensures b.accounts[h].allocation >= 0 {
        assert b'.accounts[h].allocation >= 0;
      }
    }
  }

  lemma ReturnBalanced(b: Bank, g: nat, total: nat)
    requires Balanced(b, total) && g < |b.accounts| && (b.accounts[g].isActive ==> b.accounts[g].allocation >= 0)
    ensures Balanced(ReturnLocked(b, g), total)
    ensures ReturnLocked(b, g).leaked == b.leaked && ReturnLocked(b, g).phantoms == b.phantoms
  {
    SetAccount(b.accounts, g, b.accounts[g].(isActive := false));
  }

  lemma ClearBalanced(b: Bank, g: nat, total: nat)
    requires Balanced(b, total) && g < |b.accounts| && !b.accounts[g].isActive
    ensures Balanced(Clear(b, g), total)
    ensures Clear(b, g).leaked == b.leaked && Clear(b, g).phantoms == b.phantoms
  {
    SetAccount(b.accounts, g, b.accounts[g].(allocation := 0));
  }

  lemma {:induction false} NoneActive(accounts: seq<Account>)
    requires forall g :: 0 <= g < |accounts| ==> !accounts[g].isActive
    ensures Allocated(accounts) == 0 && ActiveCount(accounts) == 0
  {
    if accounts != [] { NoneActive(accounts[..|accounts|-1]); }
  }

  lemma {:induction false} SomeActive(accounts: seq<Account>)
    requires ActiveCount(accounts) > 0
    ensures exists g :: 0 <= g < |accounts| && accounts[g].isActive
  {
    var n := |accounts| - 1;
    if !accounts[n].isActive {
      SomeActive(accounts[..n]);
      var g :| 0 <= g < n && accounts[..n][g].isActive;
      assert accounts[g].isActive;
    }
  }
}
