/** The condition list (internal/util/conditions.go): a list used as a register per type. */
module Conditions {
  import opened Api

  /** The first entry of a type, which is the one UpdateConditions looks at. */
  function Find(cs: seq<Condition>, ty: ConditionType): Option<Condition> {
    if cs == [] then None
    else if cs[0].ty == ty then Some(cs[0])
    else Find(cs[1..], ty)
  }

  /** The entries of all other types, in order. */
  function Others(cs: seq<Condition>, ty: ConditionType): seq<Condition> {
    if cs == [] then []
    else (if cs[0].ty == ty then [] else [cs[0]]) + Others(cs[1..], ty)
  }

  function Occurrences(cs: seq<Condition>, ty: ConditionType): nat {
    if cs == [] then 0 else (if cs[0].ty == ty then 1 else 0) + Occurrences(cs[1..], ty)
  }

  /** What a register holding `held` holds after (status, reason) is written at `now`. */
  function Register(held: Option<Condition>, ty: ConditionType, status: ConditionStatus, reason: Reason,
                    message: string, now: int): Condition {
    if held.Some? && held.value.status == status && held.value.reason == reason then held.value
    else Condition(ty, status, reason, message, now)
  }

  function Updated(cs: seq<Condition>, ty: ConditionType, status: ConditionStatus, reason: Reason,
                   message: string, now: int): seq<Condition> {
    if cs == [] then [Register(None, ty, status, reason, message, now)]
    else if cs[0].ty == ty then [Register(Some(cs[0]), ty, status, reason, message, now)] + cs[1..]
    else [cs[0]] + Updated(cs[1..], ty, status, reason, message, now)
  }

  /** The registers of all other types are left alone. */
  lemma {:induction false} UpdatedFramesOthers(cs: seq<Condition>, ty: ConditionType, status: ConditionStatus,
                                               reason: Reason, message: string, now: int, other: ConditionType)
    requires other != ty
    ensures Find(Updated(cs, ty, status, reason, message, now), other) == Find(cs, other)
  {
    var cs' := Updated(cs, ty, status, reason, message, now);
    if cs == [] {
      assert cs'[1..] == [];
    } else if cs[0].ty == ty {
      assert cs'[1..] == cs[1..];
    } else {
      assert cs'[1..] == Updated(cs[1..], ty, status, reason, message, now);
      UpdatedFramesOthers(cs[1..], ty, status, reason, message, now, other);
    }
  }

  lemma RegisterKeepsType(held: Option<Condition>, ty: ConditionType, status: ConditionStatus, reason: Reason,
                          message: string, now: int)
    requires held.Some? ==> held.value.ty == ty
    ensures Register(held, ty, status, reason, message, now).ty == ty
  {
  }

  lemma {:induction false} UpdatedFinds(cs: seq<Condition>, ty: ConditionType, status: ConditionStatus,
                                        reason: Reason, message: string, now: int)
    ensures var cs' := Updated(cs, ty, status, reason, message, now);
            && Find(cs', ty) == Some(Register(Find(cs, ty), ty, status, reason, message, now))
            && Occurrences(cs', ty) == (if Occurrences(cs, ty) == 0 then 1 else Occurrences(cs, ty))
  {
    hide Register;
    var cs' := Updated(cs, ty, status, reason, message, now);
    if cs == [] {
      assert cs'[1..] == [];
      RegisterKeepsType(None, ty, status, reason, message, now);
    } else if cs[0].ty == ty {
      assert cs'[1..] == cs[1..];
      RegisterKeepsType(Some(cs[0]), ty, status, reason, message, now);
    } else {
      assert cs'[1..] == Updated(cs[1..], ty, status, reason, message, now);
      UpdatedFinds(cs[1..], ty, status, reason, message, now);
    }
  }

  lemma {:induction false} UpdatedKeepsOthers(cs: seq<Condition>, ty: ConditionType, status: ConditionStatus,
                                              reason: Reason, message: string, now: int)
    ensures Others(Updated(cs, ty, status, reason, message, now), ty) == Others(cs, ty)
  {
    hide Register;
    var cs' := Updated(cs, ty, status, reason, message, now);
    if cs == [] {
      assert cs'[1..] == [];
      RegisterKeepsType(None, ty, status, reason, message, now);
    } else if cs[0].ty == ty {
      assert cs'[1..] == cs[1..];
      RegisterKeepsType(Some(cs[0]), ty, status, reason, message, now);
    } else {
      assert cs'[1..] == Updated(cs[1..], ty, status, reason, message, now);
      UpdatedKeepsOthers(cs[1..], ty, status, reason, message, now);
    }
  }

  /** One entry is written, and it behaves as a register; the entries of every other type keep
      their values and their order; no second entry of the type appears. */
  lemma UpdatedIsARegister(cs: seq<Condition>, ty: ConditionType, status: ConditionStatus,
                           reason: Reason, message: string, now: int)
    ensures var cs' := Updated(cs, ty, status, reason, message, now);
            && Find(cs', ty) == Some(Register(Find(cs, ty), ty, status, reason, message, now))
            && Find(cs', ty) == Some(var held := Find(cs, ty);
                                     if held.Some? && held.value.status == status && held.value.reason == reason
                                     then held.value
                                     else Condition(ty, status, reason, message, now))
            && Others(cs', ty) == Others(cs, ty)
            && Occurrences(cs', ty) == (if Occurrences(cs, ty) == 0 then 1 else Occurrences(cs, ty))
  {
    UpdatedFinds(cs, ty, status, reason, message, now);
    UpdatedKeepsOthers(cs, ty, status, reason, message, now);
  }

  /** When `i` is the first entry of the type, only that entry is touched. */
  lemma {:induction false} UpdatedAt(cs: seq<Condition>, i: nat, ty: ConditionType, status: ConditionStatus,
                                     reason: Reason, message: string, now: int)
    requires i < |cs| && cs[i].ty == ty
    requires forall j :: 0 <= j < i ==> cs[j].ty != ty
    ensures Updated(cs, ty, status, reason, message, now)
         == cs[i := Register(Some(cs[i]), ty, status, reason, message, now)]
  {
    if i > 0 {
      UpdatedAt(cs[1..], i - 1, ty, status, reason, message, now);
    }
  }

  lemma {:induction false} UpdatedAppends(cs: seq<Condition>, ty: ConditionType, status: ConditionStatus,
                                          reason: Reason, message: string, now: int)
    requires forall j :: 0 <= j < |cs| ==> cs[j].ty != ty
    ensures Updated(cs, ty, status, reason, message, now) == cs + [Condition(ty, status, reason, message, now)]
  {
    if cs != [] {
      UpdatedAppends(cs[1..], ty, status, reason, message, now);
    }
  }

  /** The loop of the operator: overwrite the first entry of the type in place when its status
      or reason changes, and append an entry when there is none. */
  method UpdateConditions(conditions: seq<Condition>, ty: ConditionType, status: ConditionStatus,
                          reason: Reason, message: string, now: int) returns (result: seq<Condition>)
    ensures result == Updated(conditions, ty, status, reason, message, now)
  {
    result := conditions;
    var i := 0;
    while i < |conditions|
      invariant 0 <= i <= |conditions|
      invariant result == conditions
      invariant forall j :: 0 <= j < i ==> conditions[j].ty != ty
    {
      if conditions[i].ty == ty {
        UpdatedAt(conditions, i, ty, status, reason, message, now);
        if conditions[i].status != status || conditions[i].reason != reason {
          result := result[i := Condition(ty, status, reason, message, now)];
        }
        return;
      }
      i := i + 1;
    }
    UpdatedAppends(conditions, ty, status, reason, message, now);
    result := result + [Condition(ty, status, reason, message, now)];
  }
}
