/** The payment methods of customers and their default flags. */
module PaymentMethods {
  import opened Options
  import opened BillingState

  datatype Method = Method(customer: CustomerId, card: bool, isDefault: bool, active: bool, createdAt: int)
  type Methods = map<MethodId, Method>

  predicate ActiveOf(ms: Methods, c: CustomerId, i: MethodId) {
    i in ms && ms[i].customer == c && ms[i].active
  }

  predicate ActiveDefault(ms: Methods, c: CustomerId, i: MethodId) {
    ActiveOf(ms, c, i) && ms[i].isDefault
  }

  predicate HasActive(ms: Methods, c: CustomerId) {
    exists i :: i in ms && ActiveOf(ms, c, i)
  }

  predicate HasActiveDefault(ms: Methods, c: CustomerId) {
    exists i :: i in ms && ActiveDefault(ms, c, i)
  }

  // ---------------------------------------------------------------- operations

  /** `ok` is false when the customer is unknown or the gateway or the insert fails. A bank account cannot
      come to a card-only endpoint. The first active method becomes the default. */
  function Attach(ms: Methods, c: CustomerId, i: MethodId, card: bool, stripe: bool, ok: bool, at: int): Methods {
    if !ok || (stripe && !card) then ms
    else ms[i := Method(c, card, !HasActive(ms, c), true, at)]
  }

  /** `ok` is also false when the method is a duplicate. It becomes the default when there is none. */
  function ConfirmSetup(ms: Methods, c: CustomerId, i: MethodId, card: bool, ok: bool, at: int): Methods {
    if !ok then ms else ms[i := Method(c, card, !HasActiveDefault(ms, c), true, at)]
  }

  function ClearDefaults(ms: Methods, c: CustomerId): Methods {
    map i | i in ms :: if ms[i].customer == c then ms[i].(isDefault := false) else ms[i]
  }

  function WithDefault(ms: Methods, i: MethodId): Methods
    requires i in ms
  {
    ms[i := ms[i].(isDefault := true)]
  }

  function SetDefault(ms: Methods, c: CustomerId, i: MethodId, ok: bool): Methods {
    if !ActiveOf(ms, c, i) || !ok then ms else WithDefault(ClearDefaults(ms, c), i)
  }

  /** `next` is the oldest other active method of the customer, or None when there is none. */
  predicate FoundNext(ms: Methods, c: CustomerId, i: MethodId, next: Option<MethodId>) {
    if next.Some? then
      && ActiveOf(ms, c, next.value) && next.value != i
      && forall j :: j in ms && ActiveOf(ms, c, j) && j != i ==> ms[next.value].createdAt <= ms[j].createdAt
    else forall j :: j in ms && ActiveOf(ms, c, j) ==> j == i
  }

  function Detach(ms: Methods, c: CustomerId, i: MethodId, ok: bool, next: Option<MethodId>): Methods
    requires FoundNext(ms, c, i, next)
  {
    if !ActiveOf(ms, c, i) || !ok then ms
    else
      var moved := if ms[i].isDefault && next.Some? then WithDefault(ms, next.value) else ms;
      moved[i := moved[i].(active := false, isDefault := false)]
  }

  /** The mandate of a bank account has become inactive: the method is detached, its default flag stays. */
  function DeactivateMandate(ms: Methods, i: MethodId): Methods {
    if i !in ms || ms[i].card || !ms[i].active then ms else ms[i := ms[i].(active := false)]
  }

  // ---------------------------------------------------------------- what the operations come to

  /** A method attached is the default when no row of the customer is active; a bank account sent by the card endpoint, or
      a refusal, attaches nothing. A method whose setup is confirmed is the default when no active row has the flag. */
  lemma AttachedMethod(ms: Methods, c: CustomerId, i: MethodId, card: bool, stripe: bool, ok: bool, at: int) returns (first: bool)
    ensures first <==> forall k :: k in ms && ms[k].customer == c ==> !ms[k].active
    ensures Attach(ms, c, i, card, stripe, ok, at)
            == if ok && (card || !stripe) then ms[i := Method(c, card, first, true, at)] else ms
  {
    first := !HasActive(ms, c);
  }

  lemma ConfirmedMethod(ms: Methods, c: CustomerId, i: MethodId, card: bool, ok: bool, at: int) returns (first: bool)
    ensures first <==> forall k :: k in ms && ms[k].customer == c && ms[k].active ==> !ms[k].isDefault
    ensures ConfirmSetup(ms, c, i, card, ok, at) == if ok then ms[i := Method(c, card, first, true, at)] else ms
  {
    first := !HasActiveDefault(ms, c);
  }

  /** Setting a default gives the flag to that row alone among the customer's, active or not. */
  lemma ChosenDefault(ms: Methods, c: CustomerId, i: MethodId, ok: bool)
    ensures var after := SetDefault(ms, c, i, ok);
            if i in ms && ms[i].customer == c && ms[i].active && ok then
              && after.Keys == ms.Keys
              && forall k :: k in ms ==> after[k] == ms[k].(isDefault := if ms[k].customer == c then k == i else ms[k].isDefault)
            else after == ms
  {
  }

  /** Detaching a default hands the flag to the oldest other active method, if there is one; detaching another method only
      ends that one. */
  lemma DetachedMethod(ms: Methods, c: CustomerId, i: MethodId, ok: bool, next: Option<MethodId>)
    requires FoundNext(ms, c, i, next)
    ensures var after := Detach(ms, c, i, ok, next);
            if i in ms && ms[i].customer == c && ms[i].active && ok then
              && after.Keys == ms.Keys && after[i] == ms[i].(active := false, isDefault := false)
              && (forall k :: k in ms && k != i ==>
                    after[k] == if ms[i].isDefault && next == Some(k) then ms[k].(isDefault := true) else ms[k])
              && (if next.Some? then
                    && next.value in ms && next.value != i && ms[next.value].customer == c && ms[next.value].active
                    && forall k :: k in ms && k != i && ms[k].customer == c && ms[k].active ==> ms[next.value].createdAt <= ms[k].createdAt
                  else forall k :: k in ms && k != i && ms[k].customer == c ==> !ms[k].active)
            else after == ms
  {
    if next.None? { assert forall k :: k in ms && k != i ==> !ActiveOf(ms, c, k); }
    if next.Some? { assert forall k :: k in ms && k != i && ms[k].customer == c && ms[k].active ==> ActiveOf(ms, c, k); }
  }

  /** An ended mandate ends an active bank account, and leaves its flag. */
  lemma EndedMandate(ms: Methods, i: MethodId)
    ensures DeactivateMandate(ms, i)
            == if i in ms && !ms[i].card && ms[i].active then ms[i := ms[i].(active := false)] else ms
  {
  }

  // ---------------------------------------------------------------- runs

  datatype Action =
    | DoAttach(c: CustomerId, i: MethodId, card: bool, stripe: bool, ok: bool, at: int)
    | DoConfirm(c: CustomerId, i: MethodId, card: bool, ok: bool, at: int)
    | DoSetDefault(c: CustomerId, i: MethodId, ok: bool)
    | DoDetach(c: CustomerId, i: MethodId, ok: bool, next: Option<MethodId>)
    | DoDeactivate(i: MethodId)

  predicate Possible(ms: Methods, a: Action) {
    match a
    case DoAttach(_, i, _, _, _, _) => i !in ms
    case DoConfirm(_, i, _, _, _) => i !in ms
    case DoSetDefault(_, _, _) => true
    case DoDetach(c, i, _, next) => FoundNext(ms, c, i, next)
    case DoDeactivate(_) => true
  }

  function Act(ms: Methods, a: Action): Methods
    requires Possible(ms, a)
  {
    match a
    case DoAttach(c, i, card, stripe, ok, at) => Attach(ms, c, i, card, stripe, ok, at)
    case DoConfirm(c, i, card, ok, at) => ConfirmSetup(ms, c, i, card, ok, at)
    case DoSetDefault(c, i, ok) => SetDefault(ms, c, i, ok)
    case DoDetach(c, i, ok, next) => Detach(ms, c, i, ok, next)
    case DoDeactivate(i) => DeactivateMandate(ms, i)
  }

  ghost predicate Run(states: seq<Methods>, actions: seq<Action>) {
    && |states| == |actions| + 1 && states[0] == map[]
    && forall t :: 0 <= t < |actions| ==> Possible(states[t], actions[t]) && states[t + 1] == Act(states[t], actions[t])
  }

  // ---------------------------------------------------------------- at most one default

  ghost predicate AtMostOneDefault(ms: Methods) {
    forall c, i, j :: ActiveDefault(ms, c, i) && ActiveDefault(ms, c, j) ==> i == j
  }

  /** The method the action makes the default of customer `c`, if it makes one. */
  predicate Promotes(ms: Methods, a: Action, c: CustomerId, i: MethodId) {
    match a
    case DoAttach(d, j, _, _, _, _) => c == d && i == j && !HasActive(ms, c)
    case DoConfirm(d, j, _, _, _) => c == d && i == j && !HasActiveDefault(ms, c)
    case DoSetDefault(d, j, ok) => c == d && i == j && ok && ActiveOf(ms, c, i)
    case DoDetach(d, j, ok, next) => c == d && next == Some(i) && ok && ActiveDefault(ms, c, j)
    case DoDeactivate(_) => false
  }

  /** An active default was promoted, or was the default before, and then nothing else was promoted. */
  lemma DefaultBefore(ms: Methods, a: Action, c: CustomerId, i: MethodId)
    requires Possible(ms, a) && ActiveDefault(Act(ms, a), c, i)
    ensures Promotes(ms, a, c, i) || ActiveDefault(ms, c, i)
    ensures !Promotes(ms, a, c, i) ==> forall j :: Promotes(ms, a, c, j) ==>
              a.DoDetach? && ActiveDefault(ms, c, a.i) && a.i != i
  {
  }

  lemma ActKeepsOneDefault(ms: Methods, a: Action)
    requires Possible(ms, a) && AtMostOneDefault(ms)
    ensures AtMostOneDefault(Act(ms, a))
  {
    var after := Act(ms, a);
    forall c, i, j | ActiveDefault(after, c, i) && ActiveDefault(after, c, j) ensures i == j {
      DefaultBefore(ms, a, c, i);
      DefaultBefore(ms, a, c, j);
    }
  }

  /** In every reachable state a customer has at most one active default payment method. */
  lemma {:induction false} OneDefault(states: seq<Methods>, actions: seq<Action>, t: nat)
    requires Run(states, actions) && t < |states|
    ensures AtMostOneDefault(states[t])
  {
    hide Act, Possible;
    if t > 0 {
      OneDefault(states, actions, t - 1);
      ActKeepsOneDefault(states[t - 1], actions[t - 1]);
    }
  }

  // ---------------------------------------------------------------- at least one default

  ghost predicate DefaultPresent(ms: Methods) {
    forall c :: HasActive(ms, c) ==> HasActiveDefault(ms, c)
  }

  lemma ActKeepsDefault(ms: Methods, a: Action)
    requires Possible(ms, a) && !a.DoDeactivate? && DefaultPresent(ms)
    ensures DefaultPresent(Act(ms, a))
  {
    var after := Act(ms, a);
    forall c | HasActive(after, c) ensures HasActiveDefault(after, c) {
      if HasActive(ms, c) {
        var j :| j in ms && ActiveDefault(ms, c, j);
        if !ActiveDefault(after, c, j) {
          var k := if a.DoSetDefault? then a.i else a.next.value;
          assert ActiveDefault(after, c, k);
        }
      } else {
        assert ActiveDefault(after, c, a.i);
      }
    }
  }

  /** Without mandate deactivations a customer with an active method always has a default. */
  lemma {:induction false} DefaultIsKept(states: seq<Methods>, actions: seq<Action>, t: nat)
    requires Run(states, actions) && t < |states|
    requires forall k :: 0 <= k < t ==> !actions[k].DoDeactivate?
    ensures DefaultPresent(states[t])
  {
    hide Act, Possible;
    if t > 0 {
      DefaultIsKept(states, actions, t - 1);
      ActKeepsDefault(states[t - 1], actions[t - 1]);
    }
  }

  /** A deactivation leaves active methods without a default exactly when it takes the default away from a
      customer that has another active method: nothing is promoted in its place. */
  lemma DeactivationCanLoseDefault(ms: Methods, i: MethodId)
    requires AtMostOneDefault(ms) && DefaultPresent(ms)
    ensures DefaultPresent(DeactivateMandate(ms, i))
            <==> !(&& i in ms && !ms[i].card && ActiveDefault(ms, ms[i].customer, i)
                   && exists j :: j != i && ActiveOf(ms, ms[i].customer, j))
  {
    var after := DeactivateMandate(ms, i);
    if after == ms { return; }
    var c := ms[i].customer;
    if ActiveDefault(ms, c, i) {
      forall k | k in after ensures !ActiveDefault(after, c, k) {
        assert ActiveDefault(after, c, k) ==> ActiveDefault(ms, c, k);
      }
      if j :| j != i && ActiveOf(ms, c, j) {
        assert ActiveOf(after, c, j) && HasActive(after, c);
      } else {
        assert forall k :: ActiveOf(after, c, k) ==> ActiveOf(ms, c, k);
      }
    }
    forall d | HasActive(after, d) && !(d == c && ms[i].isDefault) ensures HasActiveDefault(after, d) {
      var k :| k in after && ActiveOf(after, d, k);
      assert ActiveOf(ms, d, k) && HasActive(ms, d) && HasActiveDefault(ms, d);
      var j :| j in ms && ActiveDefault(ms, d, j);
      assert ActiveDefault(after, d, j);
    }
  }

  /** A lost default is not restored by attaching a card; confirming a setup or setting a default restores it. */
  lemma LostDefaultComesBack(ms: Methods, c: CustomerId, i: MethodId, card: bool, at: int)
    requires HasActive(ms, c) && !HasActiveDefault(ms, c)
    ensures i !in ms ==> !HasActiveDefault(Attach(ms, c, i, true, true, true, at), c)
    ensures i !in ms ==> HasActiveDefault(ConfirmSetup(ms, c, i, card, true, at), c)
    ensures ActiveOf(ms, c, i) ==> HasActiveDefault(SetDefault(ms, c, i, true), c)
  {
    if i !in ms {
      var attached := Attach(ms, c, i, true, true, true, at);
      forall k | k in attached ensures !ActiveDefault(attached, c, k) {
        assert k in ms ==> !ActiveDefault(ms, c, k);
      }
      assert ActiveDefault(ConfirmSetup(ms, c, i, card, true, at), c, i);
    }
    if ActiveOf(ms, c, i) { assert ActiveDefault(SetDefault(ms, c, i, true), c, i); }
  }

  // ---------------------------------------------------------------- the service

  class PaymentMethodsService {
    var methods: Methods

    constructor ()
      ensures methods == map[]
    {
      methods := map[];
    }

    method AttachMethod(c: CustomerId, i: MethodId, card: bool, stripe: bool, ok: bool, at: int)
      modifies this
      ensures methods == Attach(old(methods), c, i, card, stripe, ok, at)
    {
      if !ok || (stripe && !card) { return; }
      var isFirst := !HasActive(methods, c);
      methods := methods[i := Method(c, card, isFirst, true, at)];
    }

    method ConfirmSetupAndAttach(c: CustomerId, i: MethodId, card: bool, ok: bool, at: int)
      modifies this
      ensures methods == ConfirmSetup(old(methods), c, i, card, ok, at)
    {
      if !ok { return; }
      var isFirst := !HasActiveDefault(methods, c);
      methods := methods[i := Method(c, card, isFirst, true, at)];
    }

    /** Unset the flag on every row of the customer that has it, active or not. */
    method ClearDefaultFlags(c: CustomerId)
      modifies this
      ensures methods.Keys == old(methods).Keys
      ensures forall i :: i in methods ==>
                && methods[i] == old(methods)[i].(isDefault := methods[i].isDefault)
                && (methods[i].isDefault <==> old(methods)[i].isDefault && old(methods)[i].customer != c)
    {
      var left := set i | i in methods && methods[i].customer == c && methods[i].isDefault;
      while left != {}
        invariant left <= methods.Keys && methods.Keys == old(methods).Keys
        invariant forall i :: i in left ==> old(methods)[i].customer == c
        invariant forall i :: i in methods ==>
                    && methods[i] == old(methods)[i].(isDefault := methods[i].isDefault)
                    && (methods[i].isDefault <==>
                          old(methods)[i].isDefault && (old(methods)[i].customer != c || i in left))
        decreases |left|
      {
        var i :| i in left;
        methods := methods[i := methods[i].(isDefault := false)];
        left := left - {i};
      }
    }

    /** The row becomes its customer's only default, unless it is not an active one of the customer or the
        gateway refuses. */
    method ClearThenSetDefault(c: CustomerId, i: MethodId, ok: bool)
      modifies this
      ensures methods == SetDefault(old(methods), c, i, ok)
      ensures ActiveOf(old(methods), c, i) && ok ==> forall j :: j in methods ==> (ActiveDefault(methods, c, j) <==> j == i)
    {
      if !ActiveOf(methods, c, i) || !ok { return; }
      ClearDefaultFlags(c);
      assert methods == ClearDefaults(old(methods), c);
      methods := methods[i := methods[i].(isDefault := true)];
    }

    method DetachMethod(c: CustomerId, i: MethodId, ok: bool, next: Option<MethodId>)
      requires FoundNext(methods, c, i, next)
      modifies this
      ensures methods == Detach(old(methods), c, i, ok, next)
    {
      if !ActiveOf(methods, c, i) || !ok { return; }
      if methods[i].isDefault && next.Some? {
        methods := methods[next.value := methods[next.value].(isDefault := true)];
      }
      methods := methods[i := methods[i].(active := false, isDefault := false)];
    }

    /** A mandate update: only an inactive mandate of an attached bank account changes anything. */
    method HandleMandateUpdated(i: MethodId, inactive: bool)
      modifies this
      ensures methods == if inactive then DeactivateMandate(old(methods), i) else old(methods)
    {
      if !inactive || i !in methods || methods[i].card || !methods[i].active { return; }
      methods := methods[i := methods[i].(active := false)];
    }
  }
}
