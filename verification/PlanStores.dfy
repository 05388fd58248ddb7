/** The one-time plan store (planstore.go).

    The specification knows only the stored plans and recomputes every byte total from them.  The class
    keeps the running totals of the source and is proved to answer exactly as the specification does. */
module PlanStores {
  import opened Operations

  const PLAN_TTL_SECONDS := 120
  const SIZE_SAFETY_FACTOR := 4
  const MAX_CONFIRMATION_ATTEMPTS := 5

  datatype StoredPlan = StoredPlan(
    operation: Operation, subject: string, expiresAt: int, size: int, hash: string, failures: nat)

  type Plans = map<string, StoredPlan>

  datatype Budget = Budget(capacity: int, maxBytes: nat, maxSubjectBytes: nat)

  datatype CreateResult = Created(expiresAt: int) | PlanCapacity

  datatype ConsumeResult =
    | Consumed(operation: Operation)
    | ConfirmationRequired
    | InvalidConfirmation
    | InvalidPlan
    | ExpiredPlan
    | IdentityMismatch
    | ConfirmationLocked

  predicate ValidCode(code: string) {
    |code| == 6 && forall i :: 0 <= i < |code| ==> '0' <= code[i] <= '9'
  }

  /** The digest is modelled by its preimage, which makes it injective. */
  function ConfirmationHash(id: string, code: string): string {
    id + ['\0'] + code
  }

  lemma {:induction false} HashBindsCode(id: string, code: string, other: string)
    ensures ConfirmationHash(id, code) == ConfirmationHash(id, other) <==> code == other
  {
    assert code == ConfirmationHash(id, code)[|id| + 1..];
    assert other == ConfirmationHash(id, other)[|id| + 1..];
  }

  // ----- byte totals, recomputed from the plans -----

  ghost function SomePlan(plans: Plans): (id: string)
    requires plans != map[]
    ensures id in plans
  {
    assert plans.Keys != {};
    var id :| id in plans; id
  }

  ghost function TotalBytes(plans: Plans): int
    decreases |plans|
  {
    if plans == map[] then 0
    else var id := SomePlan(plans); plans[id].size + TotalBytes(plans - {id})
  }

  function OfSubject(plans: Plans, subject: string): Plans {
    map id | id in plans && plans[id].subject == subject :: plans[id]
  }

  function Unexpired(plans: Plans, now: int): Plans {
    map id | id in plans && now <= plans[id].expiresAt :: plans[id]
  }

  lemma {:induction false} TotalWithout(plans: Plans, id: string)
    requires id in plans
    ensures TotalBytes(plans) == plans[id].size + TotalBytes(plans - {id})
    decreases |plans|
  {
    var first := SomePlan(plans);
    if first != id {
      TotalWithout(plans - {first}, id);
      TotalWithout(plans - {id}, first);
      assert plans - {first} - {id} == plans - {id} - {first};
    }
  }

  lemma {:induction false} TotalWith(plans: Plans, id: string, plan: StoredPlan)
    requires id !in plans
    ensures TotalBytes(plans[id := plan]) == TotalBytes(plans) + plan.size
  {
    TotalWithout(plans[id := plan], id);
    assert plans[id := plan] - {id} == plans;
  }

  ghost predicate PositiveSizes(plans: Plans) {
    forall id :: id in plans ==> plans[id].size > 0
  }

  lemma {:induction false} TotalPositive(plans: Plans)
    requires PositiveSizes(plans)
    ensures TotalBytes(plans) >= 0
    ensures plans != map[] ==> TotalBytes(plans) > 0
    decreases |plans|
  {
    if plans != map[] {
      TotalPositive(plans - {SomePlan(plans)});
    }
  }

  ghost predicate SubPlans(some: Plans, plans: Plans) {
    forall id :: id in some ==> id in plans && some[id] == plans[id]
  }

  lemma {:induction false} TotalOfSubPlans(some: Plans, plans: Plans)
    requires PositiveSizes(plans) && SubPlans(some, plans)
    ensures TotalBytes(some) <= TotalBytes(plans) && |some| <= |plans|
    decreases |plans|
  {
    if plans == map[] {
      assert some == map[];
    } else {
      var id := SomePlan(plans);
      if id in some {
        TotalWithout(some, id);
        TotalOfSubPlans(some - {id}, plans - {id});
      } else {
        TotalOfSubPlans(some, plans - {id});
      }
    }
  }

  /** Writing a plan under a key that is new, or that already belonged to the same subject. */
  lemma {:induction false} OfSubjectWith(plans: Plans, id: string, plan: StoredPlan, subject: string)
    requires id in plans ==> plans[id].subject == plan.subject
    ensures OfSubject(plans[id := plan], subject) ==
            if subject == plan.subject then OfSubject(plans, subject)[id := plan] else OfSubject(plans, subject)
  {
  }

  lemma {:induction false} OfSubjectWithout(plans: Plans, id: string, subject: string)
    ensures OfSubject(plans - {id}, subject) == OfSubject(plans, subject) - {id}
  {
  }

  // ----- the specification: decisions over the stored plans alone -----

  /** Whether a plan of this size fits beside the plans already live. */
  ghost predicate Fits(budget: Budget, live: Plans, subject: string, size: int) {
    && |live| < budget.capacity
    && TotalBytes(live) + size <= budget.maxBytes
    && (|| TotalBytes(OfSubject(live, subject)) + size <= budget.maxSubjectBytes
        || (size > budget.maxSubjectBytes && OfSubject(live, subject) == map[]))
  }

  function NewPlan(id: string, code: string, subject: string, operation: Operation, size: int, now: int): StoredPlan {
    StoredPlan(operation, subject, now + PLAN_TTL_SECONDS, size, ConfirmationHash(id, code), 0)
  }

  ghost function CreatePlan(budget: Budget, plans: Plans, id: string, code: string, subject: string,
                        operation: Operation, size: int, prunedAt: int, createdAt: int): (Plans, CreateResult)
  {
    var live := Unexpired(plans, prunedAt);
    if Fits(budget, live, subject, size) then
      var plan := NewPlan(id, code, subject, operation, size, createdAt);
      (live[id := plan], Created(plan.expiresAt))
    else
      (live, PlanCapacity)
  }

  function ConsumePlan(plans: Plans, id: string, subject: string, code: string, now: int): (Plans, ConsumeResult) {
    if code == "" then (plans, ConfirmationRequired)
    else if !ValidCode(code) then (plans, InvalidConfirmation)
    else if id !in plans then (plans, InvalidPlan)
    else
      var plan := plans[id];
      if now > plan.expiresAt then (plans - {id}, ExpiredPlan)
      else if plan.subject != subject then (plans, IdentityMismatch)
      else if plan.hash == ConfirmationHash(id, code) then (plans - {id}, Consumed(plan.operation))
      else if plan.failures + 1 >= MAX_CONFIRMATION_ATTEMPTS then (plans - {id}, ConfirmationLocked)
      else (CountFailure(plans, id), InvalidConfirmation)
  }

  /** Whether this call compares the presented code with the stored one. */
  predicate Compares(plans: Plans, id: string, subject: string, code: string, now: int) {
    ValidCode(code) && id in plans && now <= plans[id].expiresAt && plans[id].subject == subject
  }

  // ----- what the two decisions mean for the plans and their owners -----

  predicate SixDigits(code: string) {
    |code| == 6 && forall i :: 0 <= i < 6 ==> code[i] in "0123456789"
  }

  /** Every plan but this one is still there, as it was. */
  ghost predicate OthersStay(before: Plans, after: Plans, id: string) {
    forall other :: other != id ==>
      (other in after <==> other in before) && (other in after ==> after[other] == before[other])
  }

  /** A call that is about a live plan of the caller's own, with a code of the right form. */
  predicate Presents(plans: Plans, id: string, subject: string, code: string, now: int) {
    SixDigits(code) && id in plans && plans[id].subject == subject && now <= plans[id].expiresAt
  }

  predicate RightCode(plans: Plans, id: string, code: string)
    requires id in plans
  {
    plans[id].hash == ConfirmationHash(id, code)
  }

  /** A plan leaves the store only by its owner's right code, by the fifth wrong one, or once it has expired; the right
      code yields its operation, a wrong one costs an attempt, and any other call changes nothing at all. */
  ghost predicate ConsumedFairly(before: Plans, after: Plans, id: string, subject: string, code: string, now: int,
                                 result: ConsumeResult)
  {
    && OthersStay(before, after, id)
    && (result.Consumed? <==> Presents(before, id, subject, code, now) && RightCode(before, id, code))
    && (result.Consumed? ==> result.operation == before[id].operation && id !in after)
    && (Presents(before, id, subject, code, now) && !RightCode(before, id, code) ==>
          if before[id].failures + 1 >= 5 then result.ConfirmationLocked? && id !in after
          else
            && result.InvalidConfirmation? && id in after
            && after[id] == before[id].(failures := before[id].failures + 1))
    && (!Presents(before, id, subject, code, now) ==>
          && result == Refusal(before, id, code, now)
          && after == if result.ExpiredPlan? then before - {id} else before)
  }

  /** Why a call is turned away that presents no live plan of the caller's own. */
  function Refusal(plans: Plans, id: string, code: string, now: int): ConsumeResult {
    if code == "" then ConfirmationRequired
    else if !SixDigits(code) then InvalidConfirmation
    else if id !in plans then InvalidPlan
    else if plans[id].expiresAt < now then ExpiredPlan
    else IdentityMismatch
  }

  lemma {:induction false} ConsumeIsFair(plans: Plans, id: string, subject: string, code: string, now: int)
    ensures var (after, result) := ConsumePlan(plans, id, subject, code, now);
            ConsumedFairly(plans, after, id, subject, code, now, result)
  {
    DigitsAreDigits(code);
  }

  lemma {:induction false} DigitsAreDigits(code: string)
    ensures ValidCode(code) <==> SixDigits(code)
  {
    var digits := "0123456789";
    assert forall c: char :: c in digits <==> '0' <= c <= '9' by {
      forall c: char ensures c in digits <==> '0' <= c <= '9' {
        if '0' <= c <= '9' {
          assert digits[c as int - '0' as int] == c;
        }
      }
    }
  }

  /** A plan is refused exactly when storing it would break the bounds. */
  lemma {:induction false} FitsExactly(budget: Budget, live: Plans, id: string, plan: StoredPlan)
    requires WithinBudget(budget, live) && id !in live && plan.size > 0 && plan.failures == 0
    ensures Fits(budget, live, plan.subject, plan.size) <==> WithinBudget(budget, live[id := plan])
  {
    var grown, own := live[id := plan], OfSubject(live, plan.subject);
    if Fits(budget, live, plan.subject, plan.size) {
      AdditionKeepsBudget(budget, live, id, plan);
    }
    if WithinBudget(budget, grown) {
      TotalWith(live, id, plan);
      OfSubjectWith(live, id, plan, plan.subject);
      TotalWith(own, id, plan);
      assert SubjectWithinBudget(budget, grown, plan.subject);
      assert |own[id := plan]| == |own| + 1;
    }
  }

  /** What a created plan is: the caller's operation, for two minutes, under the caller's code. */
  predicate IsNewPlan(plan: StoredPlan, operation: Operation, subject: string, id: string, code: string, createdAt: int)
  {
    && plan.operation == operation && plan.subject == subject && plan.failures == 0
    && plan.expiresAt == createdAt + 2 * 60 && plan.hash == ConfirmationHash(id, code)
  }

  predicate RemotePlan(plans: Plans, id: string, subject: string) {
    id in plans && plans[id].subject == subject && IsRemote(plans[id].operation)
  }

  // ----- what every sequence of calls keeps -----

  ghost predicate WithinBudget(budget: Budget, plans: Plans) {
    && PositiveSizes(plans)
    && (forall id :: id in plans ==> plans[id].failures < MAX_CONFIRMATION_ATTEMPTS)
    && (plans == map[] || |plans| <= budget.capacity)
    && TotalBytes(plans) <= budget.maxBytes
    && (forall subject :: SubjectWithinBudget(budget, plans, subject))
  }

  /** A subject above its byte budget holds exactly one plan. */
  ghost predicate SubjectWithinBudget(budget: Budget, plans: Plans, subject: string) {
    TotalBytes(OfSubject(plans, subject)) > budget.maxSubjectBytes ==> |OfSubject(plans, subject)| == 1
  }

  lemma {:induction false} FewerPlansStayWithinBudget(budget: Budget, some: Plans, plans: Plans)
    requires WithinBudget(budget, plans) && SubPlans(some, plans)
    ensures WithinBudget(budget, some)
  {
    TotalOfSubPlans(some, plans);
    forall subject ensures SubjectWithinBudget(budget, some, subject) {
      assert SubjectWithinBudget(budget, plans, subject);
      TotalOfSubPlans(OfSubject(some, subject), OfSubject(plans, subject));
      if OfSubject(some, subject) != map[] {
        assert |OfSubject(some, subject)| >= 1;
      }
    }
  }

  lemma {:induction false} AdditionKeepsSubject(budget: Budget, live: Plans, id: string, plan: StoredPlan,
                                                subject: string)
    requires SubjectWithinBudget(budget, live, subject) && id !in live
    requires Fits(budget, live, plan.subject, plan.size)
    ensures SubjectWithinBudget(budget, live[id := plan], subject)
  {
    OfSubjectWith(live, id, plan, subject);
    TotalWith(OfSubject(live, subject), id, plan);
  }

  lemma {:induction false} AdditionKeepsBudget(budget: Budget, live: Plans, id: string, plan: StoredPlan)
    requires WithinBudget(budget, live) && id !in live
    requires Fits(budget, live, plan.subject, plan.size) && plan.size > 0 && plan.failures == 0
    ensures WithinBudget(budget, live[id := plan])
  {
    var grown := live[id := plan];
    TotalWith(live, id, plan);
    forall other ensures SubjectWithinBudget(budget, grown, other) {
      AdditionKeepsSubject(budget, live, id, plan, other);
    }
  }

  lemma {:induction false} CreateKeepsBudget(budget: Budget, plans: Plans, id: string, code: string, subject: string,
                                             operation: Operation, size: int, prunedAt: int, createdAt: int)
    requires WithinBudget(budget, plans) && size > 0 && id !in Unexpired(plans, prunedAt)
    ensures WithinBudget(budget, CreatePlan(budget, plans, id, code, subject, operation, size, prunedAt, createdAt).0)
  {
    var live := Unexpired(plans, prunedAt);
    FewerPlansStayWithinBudget(budget, live, plans);
    if Fits(budget, live, subject, size) {
      AdditionKeepsBudget(budget, live, id, NewPlan(id, code, subject, operation, size, createdAt));
    }
  }

  lemma {:induction false} ConsumeKeepsBudget(budget: Budget, plans: Plans, id: string, subject: string, code: string,
                                              now: int)
    requires WithinBudget(budget, plans)
    ensures WithinBudget(budget, ConsumePlan(plans, id, subject, code, now).0)
  {
    var after := ConsumePlan(plans, id, subject, code, now).0;
    if id in plans && after == plans - {id} {
      FewerPlansStayWithinBudget(budget, after, plans);
    } else if id in plans && after != plans {
      CountingAFailureKeepsBudget(budget, plans, id);
    }
  }

  function CountFailure(plans: Plans, id: string): Plans
    requires id in plans
  {
    plans[id := plans[id].(failures := plans[id].failures + 1)]
  }

  lemma {:induction false} CountingAFailureKeepsBudget(budget: Budget, plans: Plans, id: string)
    requires WithinBudget(budget, plans)
    requires id in plans && plans[id].failures + 1 < MAX_CONFIRMATION_ATTEMPTS
    ensures WithinBudget(budget, CountFailure(plans, id))
  {
    FailureKeepsTotal(plans, id);
    forall subject ensures SubjectWithinBudget(budget, CountFailure(plans, id), subject) {
      assert SubjectWithinBudget(budget, plans, subject);
      FailureKeepsSubject(plans, id, subject);
    }
  }

  lemma {:induction false} FailureKeepsSubject(plans: Plans, id: string, subject: string)
    requires id in plans
    ensures TotalBytes(OfSubject(CountFailure(plans, id), subject)) == TotalBytes(OfSubject(plans, subject))
    ensures OfSubject(CountFailure(plans, id), subject).Keys == OfSubject(plans, subject).Keys
    ensures |OfSubject(CountFailure(plans, id), subject)| == |OfSubject(plans, subject)|
  {
    var own := OfSubject(plans, subject);
    OfSubjectWith(plans, id, CountFailure(plans, id)[id], subject);
    if id in own {
      FailureKeepsTotal(own, id);
    }
    assert OfSubject(CountFailure(plans, id), subject).Keys == own.Keys;
  }

  lemma {:induction false} FailureKeepsTotal(plans: Plans, id: string)
    requires id in plans
    ensures TotalBytes(CountFailure(plans, id)) == TotalBytes(plans)
    ensures |CountFailure(plans, id)| == |plans|
  {
    TotalWithout(plans, id);
    TotalWithout(CountFailure(plans, id), id);
    assert CountFailure(plans, id) - {id} == plans - {id};
    assert CountFailure(plans, id).Keys == plans.Keys;
  }

  // ----- the running totals of the source -----

  ghost predicate Accounts(plans: Plans, usedBytes: int, subjectBytes: map<string, int>) {
    && usedBytes == TotalBytes(plans)
    && forall subject :: AccountsSubject(plans, subjectBytes, subject)
  }

  /** A subject has an entry exactly when it has a plan, and the entry is its exact total. */
  ghost predicate AccountsSubject(plans: Plans, subjectBytes: map<string, int>, subject: string) {
    var own := OfSubject(plans, subject);
    if subject in subjectBytes then own != map[] && subjectBytes[subject] == TotalBytes(own) else own == map[]
  }

  function BytesOf(subjectBytes: map<string, int>, subject: string): int {
    if subject in subjectBytes then subjectBytes[subject] else 0
  }

  function ReleaseBytes(subjectBytes: map<string, int>, subject: string, size: int): map<string, int> {
    var remaining := BytesOf(subjectBytes, subject) - size;
    if remaining <= 0 then subjectBytes - {subject} else subjectBytes[subject := remaining]
  }

  lemma {:induction false} RemovalAccountsSubject(plans: Plans, subjectBytes: map<string, int>, id: string,
                                                  subject: string)
    requires AccountsSubject(plans, subjectBytes, subject) && PositiveSizes(plans) && id in plans
    ensures AccountsSubject(plans - {id}, ReleaseBytes(subjectBytes, plans[id].subject, plans[id].size), subject)
  {
    var own := OfSubject(plans, subject);
    OfSubjectWithout(plans, id, subject);
    if subject == plans[id].subject {
      assert id in own;
      TotalWithout(own, id);
      TotalPositive(own - {id});
    } else {
      assert own - {id} == own;
    }
  }

  lemma {:induction false} RemovalAccounts(plans: Plans, usedBytes: int, subjectBytes: map<string, int>, id: string)
    requires Accounts(plans, usedBytes, subjectBytes) && PositiveSizes(plans) && id in plans
    ensures Accounts(plans - {id}, usedBytes - plans[id].size,
                     ReleaseBytes(subjectBytes, plans[id].subject, plans[id].size))
  {
    TotalWithout(plans, id);
    var after, bytes := plans - {id}, ReleaseBytes(subjectBytes, plans[id].subject, plans[id].size);
    forall subject ensures AccountsSubject(after, bytes, subject) {
      RemovalAccountsSubject(plans, subjectBytes, id, subject);
    }
  }

  lemma {:induction false} AdditionAccountsSubject(plans: Plans, subjectBytes: map<string, int>, id: string,
                                                   plan: StoredPlan, subject: string)
    requires AccountsSubject(plans, subjectBytes, subject) && id !in plans
    ensures AccountsSubject(plans[id := plan],
                            subjectBytes[plan.subject := BytesOf(subjectBytes, plan.subject) + plan.size], subject)
  {
    OfSubjectWith(plans, id, plan, subject);
    TotalWith(OfSubject(plans, subject), id, plan);
    assert id in OfSubject(plans, subject)[id := plan];
  }

  lemma {:induction false} AdditionAccounts(plans: Plans, usedBytes: int, subjectBytes: map<string, int>, id: string,
                                            plan: StoredPlan)
    requires Accounts(plans, usedBytes, subjectBytes) && id !in plans
    ensures Accounts(plans[id := plan], usedBytes + plan.size,
                     subjectBytes[plan.subject := BytesOf(subjectBytes, plan.subject) + plan.size])
  {
    TotalWith(plans, id, plan);
    var after := plans[id := plan];
    var bytes := subjectBytes[plan.subject := BytesOf(subjectBytes, plan.subject) + plan.size];
    forall subject ensures AccountsSubject(after, bytes, subject) {
      AdditionAccountsSubject(plans, subjectBytes, id, plan, subject);
    }
  }

  lemma {:induction false} CollisionBreaksAccounts(plans: Plans, usedBytes: int, subjectBytes: map<string, int>,
                                                   id: string, plan: StoredPlan)
    requires Accounts(plans, usedBytes, subjectBytes) && PositiveSizes(plans) && id in plans
    ensures usedBytes + plan.size != TotalBytes(plans[id := plan])
  {
    TotalWithout(plans, id);
    TotalWithout(plans[id := plan], id);
    assert plans[id := plan] - {id} == plans - {id};
  }

  lemma {:induction false} FailureAccounts(plans: Plans, usedBytes: int, subjectBytes: map<string, int>, id: string)
    requires Accounts(plans, usedBytes, subjectBytes) && id in plans
    ensures Accounts(CountFailure(plans, id), usedBytes, subjectBytes)
  {
    FailureKeepsTotal(plans, id);
    var after := CountFailure(plans, id);
    forall subject ensures AccountsSubject(after, subjectBytes, subject) {
      assert AccountsSubject(plans, subjectBytes, subject);
      FailureKeepsSubject(plans, id, subject);
    }
  }

  class PlanStore {
    var plans: Plans
    var usedBytes: int
    var subjectBytes: map<string, int>
    const budget: Budget

    ghost predicate Valid()
      reads this
    {
      Accounts(plans, usedBytes, subjectBytes) && WithinBudget(budget, plans)
    }

    constructor (budget: Budget)
      ensures Valid() && plans == map[] && this.budget == budget
    {
      this.budget := budget;
      plans, usedBytes, subjectBytes := map[], 0, map[];
    }

    /** Clock readings, the random identifier and code, and the encoded length are inputs.
        The totals stay exact precisely when the random identifier is not the name of a live plan. */
    method Create(subject: string, operation: Operation, encodedBytes: nat, id: string, code: string,
                  prunedAt: int, createdAt: int) returns (result: CreateResult)
      requires Valid() && encodedBytes > 0
      modifies this`plans, this`usedBytes, this`subjectBytes
      ensures (plans, result) == CreatePlan(budget, old(plans), id, code, subject, operation,
                                                   encodedBytes * SIZE_SAFETY_FACTOR, prunedAt, createdAt)
      ensures Valid() <==> result.PlanCapacity? || id !in Unexpired(old(plans), prunedAt)
      ensures result.Created? ==>
                && id in plans && IsNewPlan(plans[id], operation, subject, id, code, createdAt)
                && plans[id].size == 4 * encodedBytes && result.expiresAt == plans[id].expiresAt
      ensures OthersStay(Unexpired(old(plans), prunedAt), plans, id)
    {
      var size := encodedBytes * SIZE_SAFETY_FACTOR;
      Prune(prunedAt);
      var room := HasRoom(subject, size);
      if !room {
        return PlanCapacity;
      }
      var plan := NewPlan(id, code, subject, operation, size, createdAt);
      Insert(id, plan);
      result := Created(plan.expiresAt);
    }

    method HasRoom(subject: string, size: int) returns (room: bool)
      requires Valid() && size > 0
      ensures room == Fits(budget, plans, subject, size)
    {
      assert AccountsSubject(plans, subjectBytes, subject);
      TotalPositive(plans);
      TotalPositive(OfSubject(plans, subject));
      if |plans| >= budget.capacity {
        return false;
      }
      if size > budget.maxBytes || usedBytes > budget.maxBytes - size {
        return false;
      }
      var subjectLimit := if budget.maxSubjectBytes >= size then budget.maxSubjectBytes else size;
      return BytesOf(subjectBytes, subject) <= subjectLimit - size;
    }

    method Insert(id: string, plan: StoredPlan)
      requires Valid() && plan.size > 0 && plan.failures == 0
      requires Fits(budget, plans, plan.subject, plan.size)
      modifies this`plans, this`usedBytes, this`subjectBytes
      ensures plans == old(plans)[id := plan]
      ensures Valid() <==> id !in old(plans)
    {
      if id !in plans {
        AdditionAccounts(plans, usedBytes, subjectBytes, id, plan);
        AdditionKeepsBudget(budget, plans, id, plan);
      } else {
        CollisionBreaksAccounts(plans, usedBytes, subjectBytes, id, plan);
      }
      plans := plans[id := plan];
      usedBytes := usedBytes + plan.size;
      subjectBytes := subjectBytes[plan.subject := BytesOf(subjectBytes, plan.subject) + plan.size];
    }

    method Consume(id: string, subject: string, code: string, now: int) returns (result: ConsumeResult)
      requires Valid()
      modifies this`plans, this`usedBytes, this`subjectBytes
      ensures Valid()
      ensures (plans, result) == ConsumePlan(old(plans), id, subject, code, now)
      ensures ConsumedFairly(old(plans), plans, id, subject, code, now, result)
    {
      ConsumeIsFair(plans, id, subject, code, now);
      ConsumeKeepsBudget(budget, plans, id, subject, code, now);
      if code == "" {
        return ConfirmationRequired;
      }
      if !ValidCode(code) {
        return InvalidConfirmation;
      }
      if id !in plans {
        return InvalidPlan;
      }
      var plan := plans[id];
      if now > plan.expiresAt {
        Remove(id, plan);
        return ExpiredPlan;
      }
      if plan.subject != subject {
        return IdentityMismatch;
      }
      if plan.hash != ConfirmationHash(id, code) {
        FailureAccounts(plans, usedBytes, subjectBytes, id);
        plan := plan.(failures := plan.failures + 1);
        if plan.failures >= MAX_CONFIRMATION_ATTEMPTS {
          Remove(id, plan);
          return ConfirmationLocked;
        }
        plans := plans[id := plan];
        return InvalidConfirmation;
      }
      Remove(id, plan);
      return Consumed(plan.operation);
    }

    method Prune(now: int)
      requires Valid()
      modifies this`plans, this`usedBytes, this`subjectBytes
      ensures Valid()
      ensures plans == Unexpired(old(plans), now)
      ensures forall id :: id in plans <==> id in old(plans) && old(plans)[id].expiresAt >= now
      ensures SubPlans(plans, old(plans))
    {
      var ids := plans.Keys;
      while ids != {}
        invariant Valid() && SubPlans(plans, old(plans)) && ids <= old(plans).Keys
        invariant forall id :: id in old(plans) && (id in ids || now <= old(plans)[id].expiresAt) ==> id in plans
        invariant forall id :: id in plans ==> id in ids || now <= plans[id].expiresAt
        decreases ids
      {
        var id :| id in ids;
        ids := ids - {id};
        if now > plans[id].expiresAt {
          Remove(id, plans[id]);
        }
      }
    }

    /** Removes a plan whose record may already carry one more counted failure. */
    method Remove(id: string, plan: StoredPlan)
      requires Valid()
      requires id in plans && plan.size == plans[id].size && plan.subject == plans[id].subject
      modifies this`plans, this`usedBytes, this`subjectBytes
      ensures Valid()
      ensures plans == old(plans) - {id}
    {
      RemovalAccounts(plans, usedBytes, subjectBytes, id);
      FewerPlansStayWithinBudget(budget, plans - {id}, plans);
      plans := plans - {id};
      usedBytes := usedBytes - plan.size;
      var remaining := BytesOf(subjectBytes, plan.subject) - plan.size;
      if remaining <= 0 {
        subjectBytes := subjectBytes - {plan.subject};
      } else {
        subjectBytes := subjectBytes[plan.subject := remaining];
      }
    }
  }
}
