/*
 * Alert groups of the AMLSim transaction simulator (package amlsim).
 *
 * An alert binds a group of accounts to one transaction-pattern model (a
 * typology). It keeps the members in joining order, an optional subject
 * ("main") account that makes the group suspicious (a SAR), a representative
 * ("primary") account, and gates the model's per-step emission of
 * transactions on the model's own step-validity rule.
 */
module AMLSim {

  /** Java's 64-bit `long`, used for alert identifiers and simulation steps. */
  newtype long = x: int | -0x8000_0000_0000_0000 <= x < 0x8000_0000_0000_0000

  // ---------------------------------------------------------------------------
  // Collaborators, reduced to what an alert uses of them
  // ---------------------------------------------------------------------------

  /** An account, reduced to the list of alert groups it has joined. */
  class Account {
    var alertGroups: seq<Alert>

    constructor ()
      ensures alertGroups == []
    {
      alertGroups := [];
    }

    /** Records that this account belongs to `alert`; the list only grows. */
    method AddAlertGroup(alert: Alert)
      modifies this
      ensures alertGroups == old(alertGroups) + [alert]
    {
      alertGroups := alertGroups + [alert];
    }
  }

  /** A request that the model emit the transactions of `acct` at step `step`. */
  datatype Dispatch = Dispatch(step: long, acct: Account)

  /**
   * A transaction-pattern model. Its activation rule and its transaction
   * generation are not modelled: `isValid` stands for the rule, and `sent`
   * records every emission the model was asked for, in order.
   */
  class AMLTypology {
    const isValid: long -> bool
    /** The alert this model belongs to (its back-reference). */
    var alert: Alert?
    ghost var sent: seq<Dispatch>

    constructor (isValid: long -> bool)
      ensures this.isValid == isValid && alert == null && sent == []
    {
      this.isValid := isValid;
      alert := null;
      sent := [];
    }

    /** Whether the model acts at `step`; a pure query. */
    predicate IsValidStep(step: long): (valid: bool)
      ensures valid <==> isValid(step)
    {
      isValid(step)
    }

    method SetAlert(alert: Alert)
      modifies this
      ensures this.alert == alert && sent == old(sent)
    {
      this.alert := alert;
    }

    method SendTransactions(step: long, acct: Account)
      modifies this
      ensures sent == old(sent) + [Dispatch(step, acct)]
      ensures alert == old(alert)
    {
      sent := sent + [Dispatch(step, acct)];
    }
  }

  // ---------------------------------------------------------------------------
  // The per-step gate, on values
  // ---------------------------------------------------------------------------

  /** What one `registerTransactions` call passes on to the model. */
  function Fired(isValid: long -> bool, d: Dispatch): seq<Dispatch> {
    if isValid(d.step) then [d] else []
  }

  /** What a run of `registerTransactions` calls passes on, in call order. */
  function Emitted(isValid: long -> bool, calls: seq<Dispatch>): seq<Dispatch>
    decreases |calls|
  {
    if calls == [] then []
    else Emitted(isValid, calls[..|calls| - 1]) + Fired(isValid, calls[|calls| - 1])
  }

  /** The number of dispatches in `ds` that are for step `step`. */
  function CountAt(ds: seq<Dispatch>, step: long): nat
    decreases |ds|
  {
    if ds == [] then 0
    else CountAt(ds[..|ds| - 1], step) + (if ds[|ds| - 1].step == step then 1 else 0)
  }

  lemma {:induction false} CountAtAppend(a: seq<Dispatch>, b: seq<Dispatch>, step: long)
    ensures CountAt(a + b, step) == CountAt(a, step) + CountAt(b, step)
    decreases |b|
  {
    if b == [] {
      assert a + b == a;
    } else {
      var b', last := b[..|b| - 1], b[|b| - 1];
      CountAtAppend(a, b', step);
      assert (a + b)[..|a + b| - 1] == a + b' && (a + b)[|a + b| - 1] == last;
    }
  }

  /**
   * Over any run of calls, the model is asked to emit at step `step` exactly
   * once per call for that step when the step is valid, and never otherwise.
   */
  lemma {:induction false} EmittedPerStep(isValid: long -> bool, calls: seq<Dispatch>, step: long)
    ensures CountAt(Emitted(isValid, calls), step) == if isValid(step) then CountAt(calls, step) else 0
    decreases |calls|
  {
    if calls != [] {
      var init, last := calls[..|calls| - 1], calls[|calls| - 1];
      EmittedPerStep(isValid, init, step);
      CountAtAppend(Emitted(isValid, init), Fired(isValid, last), step);
    }
  }

  /** Every dispatch passed on to the model is one of the calls and is for a valid step; there are never more dispatches than calls. */
  lemma {:induction false} EmittedOnlyValid(isValid: long -> bool, calls: seq<Dispatch>)
    ensures |Emitted(isValid, calls)| <= |calls|
    ensures forall d :: d in Emitted(isValid, calls) ==> isValid(d.step) && d in calls
    decreases |calls|
  {
    if calls != [] {
      var init := calls[..|calls| - 1];
      EmittedOnlyValid(isValid, init);
      assert forall d :: d in init ==> d in calls;
    }
  }

  /** Running two batches of calls one after the other passes on what each batch passes on, in order. */
  lemma {:induction false} EmittedAppend(isValid: long -> bool, a: seq<Dispatch>, b: seq<Dispatch>)
    ensures Emitted(isValid, a + b) == Emitted(isValid, a) + Emitted(isValid, b)
    decreases |b|
  {
    if b == [] {
      assert a + b == a;
    } else {
      var b', last := b[..|b| - 1], b[|b| - 1];
      EmittedAppend(isValid, a, b');
      assert (a + b)[..|a + b| - 1] == a + b' && (a + b)[|a + b| - 1] == last;
      assert Emitted(isValid, a + b) == Emitted(isValid, a + b') + Fired(isValid, last);
      assert Emitted(isValid, b) == Emitted(isValid, b') + Fired(isValid, last);
      assert (Emitted(isValid, a) + Emitted(isValid, b')) + Fired(isValid, last)
          == Emitted(isValid, a) + (Emitted(isValid, b') + Fired(isValid, last));
    }
  }

  // ---------------------------------------------------------------------------
  // Membership and classification, on values
  // ---------------------------------------------------------------------------

  /** The part of an alert that its own methods change: the members and the subject account. */
  datatype Snapshot = Snapshot(members: seq<Account>, main: Account?)
  {
    /** A group is suspicious (a SAR) exactly when it has a subject account. */
    predicate IsSar() {
      main != null
    }

    /**
     * The group's representative: the subject if there is one, otherwise the
     * first member, otherwise none.
     */
    function Primary(): (p: Account?)
      ensures IsSar() ==> p == main
      ensures p != null <==> IsSar() || members != []
      ensures p != null ==> p == main || p in members
      ensures !IsSar() ==> p == null || p == members[0]
    {
      if IsSar() then main
      else if members == [] then null
      else members[0]
    }

    function Apply(m: Mutation): Snapshot {
      match m
      case Join(acct) => this.(members := members + [acct])
      case Designate(subject) => this.(main := subject)
    }
  }

  /** The state of a freshly constructed alert. */
  function Initial(): Snapshot {
    Snapshot([], null)
  }

  /** A call that changes an alert: `addMember(acct)` or `setMainAccount(subject)`. */
  datatype Mutation = Join(acct: Account) | Designate(subject: Account?)

  /** The state after the mutations `ms`, applied in order, to `s`. */
  function Replay(s: Snapshot, ms: seq<Mutation>): Snapshot
    decreases |ms|
  {
    if ms == [] then s else Replay(s.Apply(ms[0]), ms[1..])
  }

  /** The accounts that join in `ms`, in joining order. */
  function Joined(ms: seq<Mutation>): seq<Account>
    decreases |ms|
  {
    if ms == [] then []
    else (if ms[0].Join? then [ms[0].acct] else []) + Joined(ms[1..])
  }

  predicate OnlyJoins(ms: seq<Mutation>) {
    forall i :: 0 <= i < |ms| ==> ms[i].Join?
  }

  /** Replaying one more mutation is applying it to the replayed state. */
  lemma {:induction false} ReplaySnoc(s: Snapshot, ms: seq<Mutation>, m: Mutation)
    ensures Replay(s, ms + [m]) == Replay(s, ms).Apply(m)
    decreases |ms|
  {
    if ms != [] {
      ReplaySnoc(s.Apply(ms[0]), ms[1..], m);
      assert (ms + [m])[1..] == ms[1..] + [m];
    }
  }

  /** Replaying two runs one after the other is replaying their concatenation. */
  lemma {:induction false} ReplayAppend(s: Snapshot, a: seq<Mutation>, b: seq<Mutation>)
    ensures Replay(s, a + b) == Replay(Replay(s, a), b)
    decreases |a|
  {
    if a == [] {
      assert a + b == b;
    } else {
      ReplayAppend(s.Apply(a[0]), a[1..], b);
      assert (a + b)[0] == a[0] && (a + b)[1..] == a[1..] + b;
    }
  }

  /**
   * The member list only grows: whatever the mutations, the members are the
   * earlier members followed by the joining accounts in joining order.
   */
  lemma {:induction false} ReplayMembers(s: Snapshot, ms: seq<Mutation>)
    ensures Replay(s, ms).members == s.members + Joined(ms)
    decreases |ms|
  {
    if ms == [] {
      assert s.members + [] == s.members;
    } else {
      var head: seq<Account> := if ms[0].Join? then [ms[0].acct] else [];
      var rest := Joined(ms[1..]);
      ReplayMembers(s.Apply(ms[0]), ms[1..]);
      assert s.Apply(ms[0]).members == s.members + head;
      assert Joined(ms) == head + rest;
      assert (s.members + head) + rest == s.members + (head + rest);
    }
  }

  /** Joins never change the subject account, hence never the SAR classification. */
  lemma {:induction false} JoinsKeepSubject(s: Snapshot, ms: seq<Mutation>)
    requires OnlyJoins(ms)
    ensures Replay(s, ms).main == s.main
    ensures Replay(s, ms).IsSar() <==> s.IsSar()
    decreases |ms|
  {
    if ms != [] {
      JoinsKeepSubject(s.Apply(ms[0]), ms[1..]);
    }
  }

  /** Once a group has a representative, later joins never change it. */
  lemma {:induction false} PrimaryStable(s: Snapshot, ms: seq<Mutation>)
    requires OnlyJoins(ms)
    requires s.Primary() != null
    ensures Replay(s, ms).Primary() == s.Primary()
  {
    JoinsKeepSubject(s, ms);
    ReplayMembers(s, ms);
  }

  /** A group built by joins alone is benign and is represented by its first joiner. */
  lemma {:induction false} FirstJoinerRepresents(ms: seq<Mutation>)
    requires OnlyJoins(ms) && ms != []
    ensures !Replay(Initial(), ms).IsSar()
    ensures Replay(Initial(), ms).Primary() == ms[0].acct
  {
    JoinsKeepSubject(Initial(), ms);
    ReplayMembers(Initial(), ms);
  }

  /**
   * Designating a subject decides the classification, and a non-null subject
   * represents the group whatever joins follow.
   */
  lemma {:induction false} DesignationDecides(s: Snapshot, subject: Account?, ms: seq<Mutation>)
    requires OnlyJoins(ms)
    ensures Replay(s, [Designate(subject)] + ms).IsSar() <==> subject != null
    ensures subject != null ==> Replay(s, [Designate(subject)] + ms).Primary() == subject
  {
    var all := [Designate(subject)] + ms;
    assert all[1..] == ms;
    JoinsKeepSubject(s.Apply(Designate(subject)), ms);
  }

  /**
   * Whatever happened before, the latest designation decides the
   * classification: after `setMainAccount(subject)` and any joins that follow,
   * the group is a SAR exactly when `subject` is non-null, and a non-null
   * subject represents it.
   */
  lemma {:induction false} LatestDesignationDecides(s: Snapshot, before: seq<Mutation>, subject: Account?, joins: seq<Mutation>)
    requires OnlyJoins(joins)
    ensures var r := Replay(s, before + [Designate(subject)] + joins);
      (r.IsSar() <==> subject != null) && (subject != null ==> r.Primary() == subject)
  {
    ReplayAppend(s, before + [Designate(subject)], joins);
    ReplaySnoc(s, before, Designate(subject));
    JoinsKeepSubject(Replay(s, before).Apply(Designate(subject)), joins);
  }

  // ---------------------------------------------------------------------------
  // The alert
  // ---------------------------------------------------------------------------

  /** A group of accounts bound to one typology model. */
  class Alert {
    const alertID: long
    var members: seq<Account>
    var mainAccount: Account?
    const model: AMLTypology

    function Snap(): Snapshot
      reads this
    {
      Snapshot(members, mainAccount)
    }

    /** Every member records this alert among its alert groups. */
    ghost predicate Linked()
      reads this, members
    {
      forall m :: m in members ==> this in m.alertGroups
    }

    constructor (alertID: long, model: AMLTypology)
      modifies model
      ensures this.alertID == alertID && this.model == model
      ensures members == [] && mainAccount == null && Snap() == Initial()
      ensures !IsSAR() && PrimaryAccount() == null && Linked()
      ensures model.alert == this && model.sent == old(model.sent)
    {
      this.alertID := alertID;
      members := [];
      mainAccount := null;
      this.model := model;
      new;
      this.model.SetAlert(this);
    }

    /** Asks the model to emit for `acct` at `step`, only when the model accepts the step. */
    method RegisterTransactions(step: long, acct: Account)
      modifies model
      ensures model.sent == old(model.sent) + Fired(model.isValid, Dispatch(step, acct))
      ensures |model.sent| == |old(model.sent)| + (if model.IsValidStep(step) then 1 else 0)
      ensures model.alert == old(model.alert)
      ensures unchanged(this)
    {
      if model.IsValidStep(step) {
        model.SendTransactions(step, acct);
      }
    }

    /** Appends `acct` to the members and records this alert on `acct`. */
    method AddMember(acct: Account)
      modifies this, acct
      ensures members == old(members) + [acct] && mainAccount == old(mainAccount)
      ensures Snap() == old(Snap()).Apply(Join(acct))
      ensures acct.alertGroups == old(acct.alertGroups) + [this]
      ensures old(Linked()) ==> Linked()
    {
      members := members + [acct];
      acct.AddAlertGroup(this);
    }

    method GetAlertID() returns (id: long)
      ensures id == alertID
    {
      id := alertID;
    }

    method GetMembers() returns (ms: seq<Account>)
      ensures ms == members
      ensures Linked() ==> forall m :: m in ms ==> this in m.alertGroups
    {
      ms := members;
    }

    method GetMainAccount() returns (main: Account?)
      ensures main == mainAccount
      ensures main != null <==> IsSAR()
    {
      main := mainAccount;
    }

    function PrimaryAccount(): (p: Account?)
      reads this
      ensures IsSAR() ==> p == mainAccount
      ensures !IsSAR() && members == [] ==> p == null
      ensures !IsSAR() && members != [] ==> p == members[0]
    {
      Snap().Primary()
    }

    /** Makes `subject` the group's subject account; null makes the group benign again. */
    method SetMainAccount(subject: Account?)
      modifies this
      ensures mainAccount == subject && members == old(members)
      ensures Snap() == old(Snap()).Apply(Designate(subject))
      ensures IsSAR() <==> subject != null
      ensures old(Linked()) ==> Linked()
    {
      mainAccount := subject;
    }

    method GetModel() returns (m: AMLTypology)
      ensures m == model
    {
      m := model;
    }

    function IsSAR(): (sar: bool)
      reads this
      ensures sar <==> mainAccount != null
    {
      Snap().IsSar()
    }
  }

  // ---------------------------------------------------------------------------
  // Clients: what a caller can conclude from the contracts alone
  // ---------------------------------------------------------------------------

  /** Members A, B, C and no subject: benign, represented by A; making C the subject makes it a SAR represented by C. */
  method GroupLifecycle() {
    var model := new AMLTypology((step: long) => step % 2 == 0);
    var alert := new Alert(1, model);
    var a := new Account();
    var b := new Account();
    var c := new Account();
    alert.AddMember(a);
    alert.AddMember(b);
    alert.AddMember(c);
    assert alert.members == [a, b, c];
    assert alert in a.alertGroups && alert in b.alertGroups && alert in c.alertGroups;
    assert alert.Linked();
    assert !alert.IsSAR() && alert.PrimaryAccount() == a;
    alert.SetMainAccount(c);
    assert alert.IsSAR() && alert.PrimaryAccount() == c;
    assert alert.members == [a, b, c] && alert.alertID == 1 && model.alert == alert;
  }

  /** Triggering one alert never touches another alert's model; an invalid step emits nothing. */
  method IndependentModels(acct: Account) {
    var even := new AMLTypology((step: long) => step % 2 == 0);
    var odd := new AMLTypology((step: long) => step % 2 == 1);
    var first := new Alert(1, even);
    var second := new Alert(2, odd);
    first.RegisterTransactions(4, acct);
    assert even.sent == [Dispatch(4, acct)] && odd.sent == [];
    first.RegisterTransactions(5, acct);
    assert even.sent == [Dispatch(4, acct)] && odd.sent == [];
    second.RegisterTransactions(5, acct);
    assert even.sent == [Dispatch(4, acct)] && odd.sent == [Dispatch(5, acct)];
  }
}
