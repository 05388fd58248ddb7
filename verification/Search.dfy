/** Paged capability search over a memoised authorization oracle (searchCatalog in catalog.go, policy.go). */
module Search {
  import opened JsonValues
  import opened Sequences

  const CHECK_LIMIT := 100

  datatype Action = Action(
    group: string, version: string, resource: string, subresource: string, verb: string, action: string,
    namespaced: bool)

  predicate Mutating(a: Action) { a.verb !in {"get", "list", "watch"} }

  function PrerequisiteGet(a: Action): Action {
    a.(subresource := "", verb := "get", action := "get")
  }

  datatype Key = Key(group: string, version: string, resource: string, subresource: string, verb: string,
                     namespace: string, name: string)

  function KeyOf(a: Action, namespace: string, name: string): Key {
    Key(a.group, a.version, a.resource, a.subresource, a.verb, namespace, name)
  }

  /** No error, a tool error that hides the capability, or any other error, which ends the search. */
  datatype Verdict = Allowed | Denied | Fault

  /** What the policy permits on a target, and how the cluster answers one access review. */
  datatype Authority = Authority(permits: (Action, string, string) -> bool, review: Key -> Verdict)

  datatype CatalogItem = CatalogItem(id: string, action: Action)

  datatype Query = Query(matches: CatalogItem -> bool, namespace: string, name: string, scope: seq<string>, limit: nat)

  function TargetNamespace(q: Query, a: Action): string {
    if a.namespaced && q.namespace == "" && |q.scope| > 0 then q.scope[0] else q.namespace
  }

  // ----- authorization, one review at a time -----

  /** The reviews CheckAndAuthorizeOperation needs, in order, each only if those before it allowed. */
  function ReviewsNeeded(auth: Authority, a: Action, namespace: string, name: string): seq<Key> {
    if !auth.permits(a, namespace, name) then []
    else if !Mutating(a) then [KeyOf(a, namespace, name)]
    else if !auth.permits(PrerequisiteGet(a), namespace, name) then []
    else [KeyOf(a, namespace, name), KeyOf(PrerequisiteGet(a), namespace, name)]
  }

  /** CheckAndAuthorizeOperation without a memo. */
  function OperationVerdict(auth: Authority, a: Action, namespace: string, name: string): Verdict {
    var needed := ReviewsNeeded(auth, a, namespace, name);
    if needed == [] then Denied
    else
      var first := auth.review(needed[0]);
      if !first.Allowed? || |needed| == 1 then first else auth.review(needed[1])
  }

  /** The reviews that are really asked for: the second only after an allowed first. */
  function Asked(auth: Authority, a: Action, namespace: string, name: string): set<Key> {
    var needed := ReviewsNeeded(auth, a, namespace, name);
    if needed == [] then {}
    else if |needed| == 1 || !auth.review(needed[0]).Allowed? then {needed[0]}
    else {needed[0], needed[1]}
  }

  function VerdictOn(auth: Authority, q: Query, c: CatalogItem): Verdict {
    OperationVerdict(auth, c.action, TargetNamespace(q, c.action), q.name)
  }

  function AskedFor(auth: Authority, q: Query, c: CatalogItem): set<Key> {
    Asked(auth, c.action, TargetNamespace(q, c.action), q.name)
  }

  // ----- the specification of one page and of the whole listing -----

  function Matching(q: Query, items: seq<CatalogItem>): seq<CatalogItem> {
    if items == [] then []
    else
      var last := items[|items| - 1];
      Matching(q, items[..|items| - 1]) + if q.matches(last) then [last] else []
  }

  /** The authorized capabilities of a list, in order. */
  function AuthorizedItems(auth: Authority, q: Query, items: seq<CatalogItem>): seq<CatalogItem> {
    if items == [] then []
    else (if VerdictOn(auth, q, items[0]).Allowed? then [items[0]] else []) + AuthorizedItems(auth, q, items[1..])
  }

  predicate NoFault(auth: Authority, q: Query, items: seq<CatalogItem>) {
    forall i :: 0 <= i < |items| ==> !VerdictOn(auth, q, items[i]).Fault?
  }

  datatype Page = Failed | InvalidCursor | Listed(found: seq<CatalogItem>, next: Option<nat>)

  datatype Scan = Faulted(at: nat) | Stopped(found: seq<CatalogItem>, at: nat)

  /** The loop of one page: examine from an index until enough are found, enough are checked or none is left. */
  function ScanFrom(auth: Authority, q: Query, list: seq<CatalogItem>, index: nat, room: nat, checks: nat): Scan
    requires index <= |list|
    decreases |list| - index
  {
    if index == |list| || room == 0 || checks == 0 then Stopped([], index)
    else
      match VerdictOn(auth, q, list[index])
      case Fault => Faulted(index + 1)
      case Denied => ScanFrom(auth, q, list, index + 1, room, checks - 1)
      case Allowed => Prepend(list[index], ScanFrom(auth, q, list, index + 1, room - 1, checks - 1))
  }

  function Prepend(c: CatalogItem, rest: Scan): Scan {
    match rest
    case Faulted(at) => Faulted(at)
    case Stopped(found, at) => Stopped([c] + found, at)
  }

  function PageAt(auth: Authority, q: Query, items: seq<CatalogItem>, start: nat): Page {
    var list := Matching(q, items);
    if start > |list| then InvalidCursor
    else
      match ScanFrom(auth, q, list, start, q.limit, CHECK_LIMIT)
      case Faulted(_) => Failed
      case Stopped(found, at) => Listed(found, if at < |list| then Some(at) else None)
  }

  // ----- one page -----

  lemma {:induction false} ScanMeaning(auth: Authority, q: Query, list: seq<CatalogItem>, index: nat, room: nat,
                                       checks: nat)
    requires index <= |list|
    ensures match ScanFrom(auth, q, list, index, room, checks)
            case Stopped(found, at) =>
              && index <= at <= |list| && at - index <= checks && |found| <= room
              && found == AuthorizedItems(auth, q, list[index..at]) && NoFault(auth, q, list[index..at])
              && (index < |list| && room > 0 && checks > 0 ==> index < at)
              && (at == |list| || |found| == room || at - index == checks)
            case Faulted(at) => index < at <= |list| && VerdictOn(auth, q, list[at - 1]).Fault?
    decreases |list| - index
  {
    if index < |list| && room > 0 && checks > 0 && !VerdictOn(auth, q, list[index]).Fault? {
      var allowed := VerdictOn(auth, q, list[index]).Allowed?;
      var less := if allowed then room - 1 else room;
      ScanMeaning(auth, q, list, index + 1, less, checks - 1);
      var rest := ScanFrom(auth, q, list, index + 1, less, checks - 1);
      if rest.Stopped? {
        ExtendLeft(auth, q, list, index, rest.at);
      }
    }
  }

  lemma {:induction false} ExtendLeft(auth: Authority, q: Query, list: seq<CatalogItem>, index: nat, at: nat)
    requires index < at <= |list| && !VerdictOn(auth, q, list[index]).Fault?
    ensures AuthorizedItems(auth, q, list[index..at]) ==
            (if VerdictOn(auth, q, list[index]).Allowed? then [list[index]] else []) + AuthorizedItems(auth, q,
                list[index + 1..at])
    ensures NoFault(auth, q, list[index + 1..at]) ==> NoFault(auth, q, list[index..at])
  {
    var whole, rest := list[index..at], list[index + 1..at];
    assert whole[0] == list[index] && whole[1..] == rest;
    forall i | 0 < i < |whole| ensures whole[i] == rest[i - 1] {}
  }

  // ----- following cursors -----

  /** A page that offers a cursor has advanced if and only if it has room at all: the limit makes listings end. */
  lemma {:induction false} PageAdvances(auth: Authority, q: Query, items: seq<CatalogItem>, start: nat)
    requires PageAt(auth, q, items, start).Listed? && PageAt(auth, q, items, start).next.Some?
    ensures var Listed(found, Some(next)) := PageAt(auth, q, items, start);
            && start <= next < |Matching(q, items)| && next <= start + 100 && (start < next <==> q.limit > 0)
            && (|found| == q.limit || next == start + 100)
  {
    ScanMeaning(auth, q, Matching(q, items), start, q.limit, CHECK_LIMIT);
  }

  /** The limit the search tool passes on: positive exactly when the configured maximum is. */
  function EffectiveLimit(requested: int, maximum: int): int {
    if requested <= 0 || requested > maximum then (if maximum < 20 then maximum else 20) else requested
  }

  /** A request within the maximum is granted; any other gets the default of twenty, or less if the maximum is. */
  lemma {:induction false} EffectiveLimitIsPositive(requested: int, maximum: int)
    ensures EffectiveLimit(requested, maximum) > 0 <==> maximum > 0
    ensures 0 < requested <= maximum ==> EffectiveLimit(requested, maximum) == requested
    ensures !(0 < requested <= maximum) ==>
              EffectiveLimit(requested, maximum) in {20, maximum} && EffectiveLimit(requested, maximum) <= 20
    ensures maximum > 0 ==> EffectiveLimit(requested, maximum) <= maximum
  {
  }

  /** Everything a caller collects by following cursors; None when a page fails. */
  function Collect(auth: Authority, q: Query, items: seq<CatalogItem>, start: nat): Option<seq<CatalogItem>>
    requires q.limit > 0 && start <= |Matching(q, items)|
    decreases |Matching(q, items)| - start
  {
    match PageAt(auth, q, items, start)
    case Failed => None
    case InvalidCursor => None
    case Listed(found, None) => Some(found)
    case Listed(found, Some(next)) =>
      PageAdvances(auth, q, items, start);
      (match Collect(auth, q, items, next) case None => None case Some(rest) => Some(found + rest))
  }

  lemma {:induction false} AuthorizedFirst(auth: Authority, q: Query, c: CatalogItem, rest: seq<CatalogItem>)
    ensures AuthorizedItems(auth, q, [c] + rest) ==
            (if VerdictOn(auth, q, c).Allowed? then [c] else []) + AuthorizedItems(auth, q, rest)
  {
    assert ([c] + rest)[1..] == rest;
  }

  lemma {:induction false} Associative(a: seq<CatalogItem>, b: seq<CatalogItem>, c: seq<CatalogItem>)
    ensures a + (b + c) == a + b + c
  {
  }

  lemma {:induction false} AuthorizedConcat(auth: Authority, q: Query, a: seq<CatalogItem>, b: seq<CatalogItem>)
    ensures AuthorizedItems(auth, q, a + b) == AuthorizedItems(auth, q, a) + AuthorizedItems(auth, q, b)
  {
    if a == [] {
      assert a + b == b;
    } else {
      var c, rest := a[0], a[1..];
      assert a == [c] + rest;
      Associative([c], rest, b);
      AuthorizedConcat(auth, q, rest, b);
      AuthorizedFirst(auth, q, c, rest);
      AuthorizedFirst(auth, q, c, rest + b);
      Associative(if VerdictOn(auth, q, c).Allowed? then [c] else [],
                  AuthorizedItems(auth, q, rest), AuthorizedItems(auth, q, b));
    }
  }

  lemma {:induction false} AuthorizedSplits(auth: Authority, q: Query, list: seq<CatalogItem>, from: nat, mid: nat)
    requires from <= mid <= |list|
    ensures AuthorizedItems(auth, q, list[from..]) ==
            AuthorizedItems(auth, q, list[from..mid]) + AuthorizedItems(auth, q, list[mid..])
  {
    assert list[from..] == list[from..mid] + list[mid..];
    AuthorizedConcat(auth, q, list[from..mid], list[mid..]);
  }

  lemma {:induction false} CollectMeaning(auth: Authority, q: Query, items: seq<CatalogItem>, start: nat)
    requires q.limit > 0 && start <= |Matching(q, items)|
    ensures var list := Matching(q, items);
            Collect(auth, q, items, start) ==
            if NoFault(auth, q, list[start..]) then Some(AuthorizedItems(auth, q, list[start..])) else None
    decreases |Matching(q, items)| - start
  {
    var list := Matching(q, items);
    ScanMeaning(auth, q, list, start, q.limit, CHECK_LIMIT);
    match ScanFrom(auth, q, list, start, q.limit, CHECK_LIMIT)
    case Faulted(at) =>
      assert list[start..][at - 1 - start] == list[at - 1];
    case Stopped(found, at) =>
      if at < |list| {
        PageAdvances(auth, q, items, start);
        CollectMeaning(auth, q, items, at);
        AuthorizedSplits(auth, q, list, start, at);
        FaultsSplit(auth, q, list, start, at);
      } else {
        assert list[start..at] == list[start..];
      }
  }

  lemma {:induction false} FaultsSplit(auth: Authority, q: Query, list: seq<CatalogItem>, from: nat, mid: nat)
    requires from <= mid <= |list|
    ensures NoFault(auth, q, list[from..]) <==> NoFault(auth, q, list[from..mid]) && NoFault(auth, q, list[mid..])
  {
    var whole, left, right := list[from..], list[from..mid], list[mid..];
    forall i | 0 <= i < |whole| ensures whole[i] == if i < |left| then left[i] else right[i - |left|] {}
    if NoFault(auth, q, whole) {
      forall i | 0 <= i < |left| ensures !VerdictOn(auth, q, left[i]).Fault? { assert whole[i] == left[i]; }
      forall i | 0 <= i < |right| ensures !VerdictOn(auth, q, right[i]).Fault? { assert whole[i + |left|] == right[i]; }
    }
  }

  // ----- what is listed -----

  /** The list is exactly the kept entries of another list, each where it stands there: an increasing index map. */
  ghost predicate Picks(indices: seq<nat>, list: seq<CatalogItem>, items: seq<CatalogItem>, keep: CatalogItem -> bool) {
    && |indices| == |list|
    && (forall k :: 0 <= k < |list| ==> indices[k] < |items| && list[k] == items[indices[k]])
    && (forall k, l :: 0 <= k < l < |indices| ==> indices[k] < indices[l])
    && forall i: nat :: i < |items| ==> (keep(items[i]) <==> i in indices)
  }

  /** And so nothing is lost, added or repeated. */
  ghost predicate Counted(list: seq<CatalogItem>, items: seq<CatalogItem>, keep: CatalogItem -> bool) {
    forall c :: multiset(list)[c] == if keep(c) then multiset(items)[c] else 0
  }

  ghost predicate Selected(list: seq<CatalogItem>, items: seq<CatalogItem>, keep: CatalogItem -> bool) {
    Counted(list, items, keep) && exists indices :: Picks(indices, list, items, keep)
  }

  lemma {:induction false} PicksOneMore(indices: seq<nat>, list: seq<CatalogItem>, items: seq<CatalogItem>,
                                        c: CatalogItem, keep: CatalogItem -> bool)
    requires Picks(indices, list, items, keep)
    ensures if keep(c) then Picks(indices + [|items|], list + [c], items + [c], keep)
            else Picks(indices, list, items + [c], keep)
  {
    var more := if keep(c) then indices + [|items|] else indices;
    forall i: nat | i < |items + [c]| ensures keep((items + [c])[i]) <==> i in more {
      if i < |items| {
        assert (items + [c])[i] == items[i];
      } else {
        assert forall k :: 0 <= k < |indices| ==> indices[k] != i;
      }
    }
  }

  lemma {:induction false} PicksStep(fewer: seq<nat>, list: seq<CatalogItem>, grown: seq<CatalogItem>,
                                     items: seq<CatalogItem>, keep: CatalogItem -> bool)
    returns (indices: seq<nat>)
    requires items != [] && Picks(fewer, list, items[..|items| - 1], keep)
    requires grown == if keep(items[|items| - 1]) then list + [items[|items| - 1]] else list
    ensures Picks(indices, grown, items, keep)
  {
    var rest, last := items[..|items| - 1], items[|items| - 1];
    PicksOneMore(fewer, list, rest, last, keep);
    assert rest + [last] == items;
    if keep(last) {
      indices := fewer + [|rest|];
    } else {
      indices := fewer;
    }
  }

  lemma {:induction false} CountsStep(list: seq<CatalogItem>, grown: seq<CatalogItem>, items: seq<CatalogItem>,
                                      c: CatalogItem, keep: CatalogItem -> bool)
    requires items != [] && multiset(list)[c] == if keep(c) then multiset(items[..|items| - 1])[c] else 0
    requires grown == if keep(items[|items| - 1]) then list + [items[|items| - 1]] else list
    ensures multiset(grown)[c] == if keep(c) then multiset(items)[c] else 0
  {
    var rest, last := items[..|items| - 1], items[|items| - 1];
    assert rest + [last] == items;
    if keep(last) {
      assert multiset(list + [last])[c] == multiset(list)[c] + if c == last then 1 else 0;
    }
  }

  lemma {:induction false} MatchingLast(q: Query, items: seq<CatalogItem>)
    requires items != []
    ensures var fewer, last := Matching(q, items[..|items| - 1]), items[|items| - 1];
            Matching(q, items) == if q.matches(last) then fewer + [last] else fewer
  {
    assert Matching(q, items[..|items| - 1]) + [] == Matching(q, items[..|items| - 1]);
  }

  lemma {:induction false} MatchingPicks(q: Query, items: seq<CatalogItem>) returns (indices: seq<nat>)
    ensures Picks(indices, Matching(q, items), items, q.matches)
  {
    if items == [] {
      indices := [];
    } else {
      var fewer := MatchingPicks(q, items[..|items| - 1]);
      MatchingLast(q, items);
      indices := PicksStep(fewer, Matching(q, items[..|items| - 1]), Matching(q, items), items, q.matches);
    }
  }

  lemma {:induction false} MatchingCounts(q: Query, items: seq<CatalogItem>, c: CatalogItem)
    ensures multiset(Matching(q, items))[c] == if q.matches(c) then multiset(items)[c] else 0
  {
    if items != [] {
      MatchingCounts(q, items[..|items| - 1], c);
      MatchingLast(q, items);
      CountsStep(Matching(q, items[..|items| - 1]), Matching(q, items), items, c, q.matches);
    }
  }

  lemma {:induction false} AuthorizedLast(auth: Authority, q: Query, rest: seq<CatalogItem>, c: CatalogItem)
    ensures AuthorizedItems(auth, q, rest + [c]) ==
            if VerdictOn(auth, q, c).Allowed? then AuthorizedItems(auth, q, rest) + [c]
            else AuthorizedItems(auth, q, rest)
  {
    AuthorizedConcat(auth, q, rest, [c]);
    AuthorizedFirst(auth, q, c, []);
    assert [c] + [] == [c];
    assert AuthorizedItems(auth, q, rest) + [] == AuthorizedItems(auth, q, rest);
  }

  /** What a capability must have to be listed, in the terms of the policy and the cluster: the policy permits it on the
      target and a review allows it, and for anything but get, list and watch the same holds of getting the object. */
  predicate Visible(auth: Authority, q: Query, c: CatalogItem) {
    var Action(group, version, resource, subresource, verb, _, namespaced) := c.action;
    var namespace := if namespaced && q.namespace == "" && q.scope != [] then q.scope[0] else q.namespace;
    && auth.permits(c.action, namespace, q.name)
    && auth.review(Key(group, version, resource, subresource, verb, namespace, q.name)).Allowed?
    && (verb != "get" && verb != "list" && verb != "watch" ==>
          && auth.permits(Action(group, version, resource, "", "get", "get", namespaced), namespace, q.name)
          && auth.review(Key(group, version, resource, "", "get", namespace, q.name)).Allowed?)
  }

  /** A review that is needed to decide on the capability cannot be answered. */
  predicate Undecided(auth: Authority, q: Query, c: CatalogItem) {
    var Action(group, version, resource, subresource, verb, _, namespaced) := c.action;
    var namespace := if namespaced && q.namespace == "" && q.scope != [] then q.scope[0] else q.namespace;
    var writes := verb != "get" && verb != "list" && verb != "watch";
    var own := auth.review(Key(group, version, resource, subresource, verb, namespace, q.name));
    && auth.permits(c.action, namespace, q.name)
    && (writes ==> auth.permits(Action(group, version, resource, "", "get", "get", namespaced), namespace, q.name))
    && (own.Fault? ||
        (writes && own.Allowed? && auth.review(Key(group, version, resource, "", "get", namespace, q.name)).Fault?))
  }

  lemma {:induction false} VerdictMeaning(auth: Authority, q: Query, c: CatalogItem)
    ensures VerdictOn(auth, q, c).Allowed? <==> Visible(auth, q, c)
    ensures VerdictOn(auth, q, c).Fault? <==> Undecided(auth, q, c)
  {
  }

  lemma {:induction false} NoFaultLast(auth: Authority, q: Query, rest: seq<CatalogItem>, c: CatalogItem)
    ensures NoFault(auth, q, rest + [c]) <==> NoFault(auth, q, rest) && !Undecided(auth, q, c)
  {
    var list := rest + [c];
    VerdictMeaning(auth, q, c);
    assert list[|rest|] == c;
    if NoFault(auth, q, list) {
      forall i | 0 <= i < |rest| ensures !VerdictOn(auth, q, rest[i]).Fault? { assert list[i] == rest[i]; }
    }
  }

  lemma {:induction false} MatchingFaults(auth: Authority, q: Query, items: seq<CatalogItem>)
    ensures NoFault(auth, q, Matching(q, items)) <==> AllDecided(auth, q, items)
  {
    if items != [] {
      var rest, last := items[..|items| - 1], items[|items| - 1];
      MatchingFaults(auth, q, rest);
      NoFaultLast(auth, q, Matching(q, rest), last);
      assert Matching(q, rest) + [] == Matching(q, rest);
      var decided := q.matches(last) ==> !Undecided(auth, q, last);
      assert AllDecided(auth, q, items) <==> AllDecided(auth, q, rest) && decided by {
        assert forall i :: 0 <= i < |rest| ==> rest[i] == items[i];
      }
    }
  }

  /** Every review that decides on a matching capability is answered. */
  predicate AllDecided(auth: Authority, q: Query, items: seq<CatalogItem>) {
    forall i :: 0 <= i < |items| && q.matches(items[i]) ==> !Undecided(auth, q, items[i])
  }

  /** What a caller asked for and may see. */
  function Wanted(auth: Authority, q: Query): CatalogItem -> bool { c => q.matches(c) && Visible(auth, q, c) }

  /** Everything a caller is listed. */
  function FullList(auth: Authority, q: Query, items: seq<CatalogItem>): seq<CatalogItem> {
    AuthorizedItems(auth, q, Matching(q, items))
  }

  lemma {:induction false} FullListLast(auth: Authority, q: Query, items: seq<CatalogItem>)
    requires items != []
    ensures var fewer, last := FullList(auth, q, items[..|items| - 1]), items[|items| - 1];
            FullList(auth, q, items) == if Wanted(auth, q)(last) then fewer + [last] else fewer
  {
    MatchingLast(q, items);
    AuthorizedLast(auth, q, Matching(q, items[..|items| - 1]), items[|items| - 1]);
    VerdictMeaning(auth, q, items[|items| - 1]);
  }

  lemma {:induction false} FullListPicks(auth: Authority, q: Query, items: seq<CatalogItem>) returns (indices: seq<nat>)
    ensures Picks(indices, FullList(auth, q, items), items, Wanted(auth, q))
  {
    if items == [] {
      indices := [];
    } else {
      var fewer := FullListPicks(auth, q, items[..|items| - 1]);
      FullListLast(auth, q, items);
      indices := PicksStep(fewer, FullList(auth, q, items[..|items| - 1]), FullList(auth, q, items), items,
                           Wanted(auth, q));
    }
  }

  lemma {:induction false} FullListCounts(auth: Authority, q: Query, items: seq<CatalogItem>, c: CatalogItem)
    ensures multiset(FullList(auth, q, items))[c] == if Wanted(auth, q)(c) then multiset(items)[c] else 0
  {
    if items != [] {
      FullListCounts(auth, q, items[..|items| - 1], c);
      FullListLast(auth, q, items);
      CountsStep(FullList(auth, q, items[..|items| - 1]), FullList(auth, q, items), items, c, Wanted(auth, q));
    }
  }

  lemma {:induction false} FullListIsSelected(auth: Authority, q: Query, items: seq<CatalogItem>)
    ensures Selected(FullList(auth, q, items), items, Wanted(auth, q))
  {
    var indices := FullListPicks(auth, q, items);
    forall c ensures multiset(FullList(auth, q, items))[c] == if Wanted(auth, q)(c) then multiset(items)[c] else 0 {
      FullListCounts(auth, q, items, c);
    }
  }

  /** Following cursors from the start ends.  If no review of a matching capability fails to be answered, it yields
      exactly the matching visible capabilities of the catalog, in its order and once each; otherwise it fails. */
  lemma {:induction false} FollowingCursorsListsEverything(auth: Authority, q: Query, items: seq<CatalogItem>)
    requires q.limit > 0
    ensures var listed := Collect(auth, q, items, 0);
            && (listed.Some? <==> AllDecided(auth, q, items))
            && (listed.Some? ==> Selected(listed.value, items, Wanted(auth, q)))
    ensures Collect(auth, q, items, 0) ==
            if NoFault(auth, q, Matching(q, items)) then Some(AuthorizedItems(auth, q, Matching(q, items))) else None
  {
    CollectMeaning(auth, q, items, 0);
    assert Matching(q, items)[0..] == Matching(q, items);
    MatchingFaults(auth, q, items);
    FullListIsSelected(auth, q, items);
  }

  // ----- the memo -----

  ghost function KeySet(keys: seq<Key>): set<Key> { set key | key in keys }

  /** The cache of one search, with the reviews it really sent. */
  class AuthorizationMemo {
    const auth: Authority
    var cached: map<Key, Verdict>
    var sent: seq<Key>

    ghost predicate Valid()
      reads this
    {
      && cached.Keys == KeySet(sent) && Distinct(sent)
      && forall key :: key in cached ==> cached[key] == auth.review(key)
    }

    constructor (auth: Authority)
      ensures Valid() && sent == [] && this.auth == auth
    {
      this.auth := auth;
      cached, sent := map[], [];
    }

    method Authorize(key: Key) returns (verdict: Verdict)
      requires Valid()
      modifies this`cached, this`sent
      ensures Valid() && verdict == auth.review(key)
      ensures KeySet(sent) == KeySet(old(sent)) + {key}
    {
      if key in cached {
        return cached[key];
      }
      verdict := auth.review(key);
      cached := cached[key := verdict];
      sent := sent + [key];
    }

    method CheckAndAuthorizeOperation(a: Action, namespace: string, name: string) returns (verdict: Verdict)
      requires Valid()
      modifies this`cached, this`sent
      ensures Valid() && verdict == OperationVerdict(auth, a, namespace, name)
      ensures KeySet(sent) == KeySet(old(sent)) + Asked(auth, a, namespace, name)
    {
      if !auth.permits(a, namespace, name) {
        return Denied;
      }
      if Mutating(a) && !auth.permits(PrerequisiteGet(a), namespace, name) {
        return Denied;
      }
      verdict := Authorize(KeyOf(a, namespace, name));
      if verdict.Allowed? && Mutating(a) {
        verdict := Authorize(KeyOf(PrerequisiteGet(a), namespace, name));
      }
    }

    method Examine(q: Query, c: CatalogItem) returns (verdict: Verdict)
      requires Valid()
      modifies this`cached, this`sent
      ensures Valid() && verdict == VerdictOn(auth, q, c)
      ensures KeySet(sent) == KeySet(old(sent)) + AskedFor(auth, q, c)
    {
      verdict := CheckAndAuthorizeOperation(c.action, TargetNamespace(q, c.action), q.name);
    }
  }

  /** The reviews an unmemoised page would ask for. */
  function AskedBy(auth: Authority, q: Query, list: seq<CatalogItem>, from: nat, upTo: nat): set<Key>
    requires from <= upTo <= |list|
    decreases upTo
  {
    if from == upTo then {} else AskedBy(auth, q, list, from, upTo - 1) + AskedFor(auth, q, list[upTo - 1])
  }

  lemma {:induction false} AskedOneMore(auth: Authority, q: Query, list: seq<CatalogItem>, from: nat, upTo: nat)
    requires from < upTo <= |list|
    ensures AskedBy(auth, q, list, from, upTo) == AskedBy(auth, q, list, from, upTo - 1) + AskedFor(auth, q,
        list[upTo - 1])
  {
  }

  method FilterItems(q: Query, items: seq<CatalogItem>) returns (list: seq<CatalogItem>)
    ensures list == Matching(q, items) && Selected(list, items, q.matches)
  {
    list := [];
    var i := 0;
    while i < |items|
      invariant i <= |items| && list == Matching(q, items[..i])
    {
      assert items[..i + 1][..i] == items[..i];
      if q.matches(items[i]) {
        list := list + [items[i]];
      }
      i := i + 1;
    }
    assert items[..i] == items;
    ghost var indices := MatchingPicks(q, items);
    forall c ensures multiset(list)[c] == if q.matches(c) then multiset(items)[c] else 0 {
      MatchingCounts(q, items, c);
    }
  }

  /** The page found so far, completed by the rest of the scan, is the whole page; the reviews sent so far are
      those of the capabilities examined so far. */
  ghost predicate Progress(auth: Authority, q: Query, list: seq<CatalogItem>, start: nat, index: nat,
                           found: seq<CatalogItem>, checks: nat, sent: set<Key>, whole: Scan)
  {
    && start <= index <= |list| && |found| <= q.limit && checks <= CHECK_LIMIT
    && whole == Append(found, ScanFrom(auth, q, list, index, q.limit - |found|, CHECK_LIMIT - checks))
    && sent == AskedBy(auth, q, list, start, index)
  }

  lemma {:induction false} ProgressStep(auth: Authority, q: Query, list: seq<CatalogItem>, start: nat, index: nat,
                                        found: seq<CatalogItem>, checks: nat, sent: set<Key>, whole: Scan)
    requires Progress(auth, q, list, start, index, found, checks, sent, whole)
    requires index < |list| && |found| < q.limit && checks < CHECK_LIMIT
    ensures sent + AskedFor(auth, q, list[index]) == AskedBy(auth, q, list, start, index + 1)
    ensures var grown := if VerdictOn(auth, q, list[index]).Allowed? then found + [list[index]] else found;
            if VerdictOn(auth, q, list[index]).Fault? then whole == Faulted(index + 1)
            else Progress(auth, q, list, start, index + 1, grown, checks + 1, sent + AskedFor(auth, q, list[index]),
                          whole)
  {
    AskedOneMore(auth, q, list, start, index + 1);
    ScanStep(auth, q, list, index, q.limit - |found|, CHECK_LIMIT - checks, found, whole);
  }

  lemma {:induction false} ProgressEnd(auth: Authority, q: Query, list: seq<CatalogItem>, start: nat, index: nat,
                                       found: seq<CatalogItem>, checks: nat, sent: set<Key>, whole: Scan)
    requires Progress(auth, q, list, start, index, found, checks, sent, whole)
    requires index == |list| || |found| == q.limit || checks == CHECK_LIMIT
    ensures whole == Stopped(found, index) && sent == AskedBy(auth, q, list, start, index)
  {
    AppendEnd(found, index);
  }

  /** One turn of the page loop. */
  method ExamineNext(q: Query, list: seq<CatalogItem>, start: nat, memo: AuthorizationMemo, index: nat,
                     found: seq<CatalogItem>, checks: nat, ghost whole: Scan)
    returns (faulted: bool, grown: seq<CatalogItem>)
    requires memo.Valid() && Progress(memo.auth, q, list, start, index, found, checks, KeySet(memo.sent), whole)
    requires index < |list| && |found| < q.limit && checks < CHECK_LIMIT
    modifies memo`cached, memo`sent
    ensures memo.Valid()
    ensures faulted ==>
        whole == Faulted(index + 1) && KeySet(memo.sent) == AskedBy(memo.auth, q, list, start, index + 1)
    ensures !faulted ==>
              Progress(memo.auth, q, list, start, index + 1, grown, checks + 1, KeySet(memo.sent), whole)
  {
    ProgressStep(memo.auth, q, list, start, index, found, checks, KeySet(memo.sent), whole);
    var verdict := memo.Examine(q, list[index]);
    faulted := verdict.Fault?;
    grown := if verdict.Allowed? then found + [list[index]] else found;
  }

  /** The page loop, asking the memo. */
  method ScanPage(q: Query, list: seq<CatalogItem>, start: nat, memo: AuthorizationMemo) returns (scan: Scan)
    requires start <= |list| && memo.Valid() && memo.sent == []
    modifies memo`cached, memo`sent
    ensures memo.Valid()
    ensures scan == ScanFrom(memo.auth, q, list, start, q.limit, CHECK_LIMIT)
    ensures start <= scan.at <= |list| && KeySet(memo.sent) == AskedBy(memo.auth, q, list, start, scan.at)
  {
    ghost var whole := ScanFrom(memo.auth, q, list, start, q.limit, CHECK_LIMIT);
    AppendNone(whole);
    var found, index, checks := [], start, 0;
    while index < |list| && |found| < q.limit && checks < CHECK_LIMIT
      invariant memo.Valid()
      invariant Progress(memo.auth, q, list, start, index, found, checks, KeySet(memo.sent), whole)
    {
      var faulted, grown := ExamineNext(q, list, start, memo, index, found, checks, whole);
      checks, index, found := checks + 1, index + 1, grown;
      if faulted {
        return Faulted(index);
      }
    }
    ProgressEnd(memo.auth, q, list, start, index, found, checks, KeySet(memo.sent), whole);
    scan := Stopped(found, index);
  }

  /** What one more examined capability does to the page found so far. */
  lemma {:induction false} ScanStep(auth: Authority, q: Query, list: seq<CatalogItem>, index: nat, room: nat,
                                    checks: nat,
                                    found: seq<CatalogItem>, whole: Scan)
    requires index < |list| && room > 0 && checks > 0
    requires whole == Append(found, ScanFrom(auth, q, list, index, room, checks))
    ensures match VerdictOn(auth, q, list[index])
            case Fault => whole == Faulted(index + 1)
            case Denied => whole == Append(found, ScanFrom(auth, q, list, index + 1, room, checks - 1))
            case Allowed => whole == Append(found + [list[index]],
                                            ScanFrom(auth, q, list, index + 1, room - 1, checks - 1))
  {
    if VerdictOn(auth, q, list[index]).Allowed? {
      AppendOne(found, list[index], ScanFrom(auth, q, list, index + 1, room - 1, checks - 1));
    }
  }

  /** One memoised page is the unmemoised page, and sends each review that page needs exactly once. */
  method SearchCatalog(auth: Authority, q: Query, items: seq<CatalogItem>, start: nat)
    returns (page: Page, sent: seq<Key>)
    ensures page == PageAt(auth, q, items, start)
    ensures Distinct(sent)
    ensures var list := Matching(q, items);
            start <= |list| ==>
              var scan := ScanFrom(auth, q, list, start, q.limit, CHECK_LIMIT);
              start <= scan.at <= |list| && KeySet(sent) == AskedBy(auth, q, list, start, scan.at)
  {
    var list := FilterItems(q, items);
    if start > |list| {
      return InvalidCursor, [];
    }
    var memo := new AuthorizationMemo(auth);
    var scan := ScanPage(q, list, start, memo);
    sent := memo.sent;
    match scan
    case Faulted(_) => page := Failed;
    case Stopped(found, at) => page := Listed(found, if at < |list| then Some(at) else None);
  }

  lemma {:induction false} AppendNone(scan: Scan)
    ensures Append([], scan) == scan
  {
    if scan.Stopped? {
      assert [] + scan.found == scan.found;
    }
  }

  lemma {:induction false} AppendEnd(found: seq<CatalogItem>, at: nat)
    ensures Append(found, Stopped([], at)) == Stopped(found, at)
  {
    assert found + [] == found;
  }

  ghost function Append(found: seq<CatalogItem>, rest: Scan): Scan {
    match rest
    case Faulted(at) => Faulted(at)
    case Stopped(more, at) => Stopped(found + more, at)
  }

  lemma {:induction false} AppendOne(found: seq<CatalogItem>, c: CatalogItem, rest: Scan)
    ensures Append(found, Prepend(c, rest)) == Append(found + [c], rest)
  {
    if rest.Stopped? {
      assert found + ([c] + rest.found) == found + [c] + rest.found;
    }
  }
}
