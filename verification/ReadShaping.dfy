/** Metadata cleaning and redaction of what reads return (internal/server/read_output.go and redaction.go). */
module ReadShaping {
  import opened JsonValues

  datatype Options = Options(omitManagedFields: bool, omitAnnotations: bool)

  /** Which annotation names and annotation texts count as credentials: any predicates at all. */
  datatype Sensitivity = Sensitivity(name: string -> bool, text: string -> bool)

  const REDACTED := String("<redacted>")

  predicate Omitted(o: Options, key: string) {
    (key == "managedFields" && o.omitManagedFields) || (key == "annotations" && o.omitAnnotations)
  }

  function Clean(v: Json, o: Options, metadata: bool): Json
    decreases v
  {
    match v
    case Object(fields) =>
      Object(map key | key in fields && !(metadata && Omitted(o, key)) :: Clean(fields[key], o, key == "metadata"))
    case List(items) => List(seq(|items|, i requires 0 <= i < |items| => Clean(items[i], o, false)))
    case _ => v
  }

  predicate Hidden(s: Sensitivity, key: string, raw: Json) {
    s.name(key) || (raw.String? && s.text(raw.s))
  }

  function RedactAnnotations(v: Json, s: Sensitivity): Json {
    if !v.Object? then v
    else Object(map key | key in v.fields :: if Hidden(s, key, v.fields[key]) then REDACTED else v.fields[key])
  }

  function Redact(v: Json, s: Sensitivity, metadata: bool): Json
    decreases v
  {
    match v
    case Object(fields) =>
      Object(map key | key in fields ::
               if metadata && key == "annotations" then RedactAnnotations(fields[key], s)
               else Redact(fields[key], s, key == "metadata"))
    case List(items) => List(seq(|items|, i requires 0 <= i < |items| => Redact(items[i], s, false)))
    case _ => v
  }

  // ----- the two commute, and each is idempotent -----

  lemma {:induction false} CleanCommutesWithAnnotationRedaction(v: Json, o: Options, s: Sensitivity)
    ensures Clean(RedactAnnotations(v, s), o, false) == RedactAnnotations(Clean(v, o, false), s)
  {
    if v.Object? {
      var one, other := Clean(RedactAnnotations(v, s), o, false).fields,
          RedactAnnotations(Clean(v, o, false), s).fields;
      forall key | key in v.fields ensures one[key] == other[key] {
        var raw, inner := v.fields[key], key == "metadata";
        assert Clean(REDACTED, o, inner) == REDACTED;
        assert Clean(raw, o, inner).String? == raw.String? && (raw.String? ==> Clean(raw, o, inner) == raw);
        assert one[key] == Clean(RedactAnnotations(v, s).fields[key], o, inner);
        assert Clean(v, o, false).fields[key] == Clean(raw, o, inner);
      }
      assert one == other;
    }
  }

  /** Redacting first or cleaning first gives the same answer, whatever the nesting. */
  lemma {:induction false} CleanCommutesWithRedact(v: Json, o: Options, s: Sensitivity, metadata: bool)
    ensures Clean(Redact(v, s, metadata), o, metadata) == Redact(Clean(v, o, metadata), s, metadata)
    decreases v, 1
  {
    match v
    case Object(fields) =>
      var one, other := Clean(Redact(v, s, metadata), o, metadata).fields,
          Redact(Clean(v, o, metadata), s, metadata).fields;
      forall key | key in fields && !(metadata && Omitted(o, key)) ensures one[key] == other[key] {
        FieldCommutes(v, o, s, metadata, key);
      }
      assert one == other;
    case List(items) =>
      forall i | 0 <= i < |items|
        ensures Clean(Redact(items[i], s, false), o, false) == Redact(Clean(items[i], o, false), s, false)
      {
        CleanCommutesWithRedact(items[i], o, s, false);
      }
      assert Clean(Redact(v, s, metadata), o, metadata).items == Redact(Clean(v, o, metadata), s, metadata).items;
    case _ =>
  }

  lemma {:induction false} FieldCommutes(v: Json, o: Options, s: Sensitivity, metadata: bool, key: string)
    requires v.Object? && key in v.fields && !(metadata && Omitted(o, key))
    ensures Clean(Redact(v, s, metadata), o, metadata).fields[key] ==
            Redact(Clean(v, o, metadata), s, metadata).fields[key]
    decreases v, 0
  {
    if metadata && key == "annotations" {
      CleanCommutesWithAnnotationRedaction(v.fields[key], o, s);
    } else {
      CleanCommutesWithRedact(v.fields[key], o, s, key == "metadata");
    }
  }

  lemma {:induction false} CleanIsIdempotent(v: Json, o: Options, metadata: bool)
    ensures Clean(Clean(v, o, metadata), o, metadata) == Clean(v, o, metadata)
    decreases v
  {
    match v
    case Object(fields) =>
      var once := Clean(v, o, metadata);
      forall key | key in once.fields ensures Clean(once, o, metadata).fields[key] == once.fields[key] {
        CleanIsIdempotent(fields[key], o, key == "metadata");
      }
      assert Clean(once, o, metadata).fields == once.fields;
    case List(items) =>
      var once := Clean(v, o, metadata);
      forall i | 0 <= i < |items| ensures Clean(once, o, metadata).items[i] == once.items[i] {
        CleanIsIdempotent(items[i], o, false);
      }
      assert Clean(once, o, metadata).items == once.items;
    case _ =>
  }

  lemma {:induction false} RedactIsIdempotent(v: Json, s: Sensitivity, metadata: bool)
    ensures Redact(Redact(v, s, metadata), s, metadata) == Redact(v, s, metadata)
    decreases v
  {
    match v
    case Object(fields) =>
      var once := Redact(v, s, metadata);
      forall key | key in fields ensures Redact(once, s, metadata).fields[key] == once.fields[key] {
        if metadata && key == "annotations" {
          AnnotationRedactionIsIdempotent(fields[key], s);
        } else {
          RedactIsIdempotent(fields[key], s, key == "metadata");
        }
      }
      assert Redact(once, s, metadata).fields == once.fields;
    case List(items) =>
      var once := Redact(v, s, metadata);
      forall i | 0 <= i < |items| ensures Redact(once, s, metadata).items[i] == once.items[i] {
        RedactIsIdempotent(items[i], s, false);
      }
      assert Redact(once, s, metadata).items == once.items;
    case _ =>
  }

  lemma {:induction false} AnnotationRedactionIsIdempotent(v: Json, s: Sensitivity)
    ensures RedactAnnotations(RedactAnnotations(v, s), s) == RedactAnnotations(v, s)
  {
    if v.Object? {
      assert RedactAnnotations(RedactAnnotations(v, s), s).fields == RedactAnnotations(v, s).fields;
    }
  }

  // ----- what is removed and what is hidden -----

  /** One step into a value. */
  datatype Turn = Field(key: string) | Entry(index: nat)

  function Step(v: Json, turn: Turn): Option<Json> {
    match turn
    case Field(key) => FieldOf(v, key)
    case Entry(i) => if v.List? && i < |v.items| then Some(v.items[i]) else None
  }

  /** The value a route leads to. */
  function Find(v: Json, route: seq<Turn>): Option<Json>
    decreases |route|
  {
    if route == [] then Some(v)
    else
      match Step(v, route[0])
      case None => None
      case Some(next) => Find(next, route[1..])
  }

  /** Whether a route ends at the metadata of an object. */
  function IsMetadata(metadata: bool, route: seq<Turn>): bool {
    if route == [] then metadata else route[|route| - 1] == Field("metadata")
  }

  predicate OmittedName(o: Options, key: string) {
    (o.omitManagedFields && key == "managedFields") || (o.omitAnnotations && key == "annotations")
  }

  /** Some step of the route is a metadata field that the options omit. */
  predicate PassesOmitted(o: Options, metadata: bool, route: seq<Turn>)
    decreases |route|
  {
    route != [] &&
    (|| (metadata && route[0].Field? && OmittedName(o, route[0].key))
     || PassesOmitted(o, route[0] == Field("metadata"), route[1..]))
  }

  /** The same scalar, a list of the same length, or an object with the same keys, but for those that are left out. */
  ghost predicate SameShape(before: Json, after: Json, leftOut: string -> bool) {
    match before
    case Object(fields) =>
      after.Object? && forall key :: key in after.fields <==> key in fields && !leftOut(key)
    case List(items) => after.List? && |after.items| == |items|
    case _ => after == before
  }

  /** Cleaning removes exactly the routes through an omitted metadata field; every other route leads where it led, to a
      value of the same shape, which determines the whole result. */
  lemma {:induction false} CleanRemovesExactlyOmitted(v: Json, o: Options, metadata: bool, route: seq<Turn>)
    ensures var found, was := Find(Clean(v, o, metadata), route), Find(v, route);
            && (found.Some? <==> was.Some? && !PassesOmitted(o, metadata, route))
            && (found.Some? ==>
                  SameShape(was.value, found.value, key => IsMetadata(metadata, route) && OmittedName(o, key)))
    decreases |route|
  {
    if route != [] {
      var inner := route[0] == Field("metadata");
      match Step(v, route[0])
      case None => assert Step(Clean(v, o, metadata), route[0]) == None;
      case Some(next) =>
        CleanRemovesExactlyOmitted(next, o, inner, route[1..]);
        assert route[1..] != [] ==> route[1..][|route| - 2] == route[|route| - 1];
        if !(metadata && route[0].Field? && Omitted(o, route[0].key)) {
          assert Step(Clean(v, o, metadata), route[0]) == Some(Clean(next, o, inner));
        }
    }
  }

  /** Where the route enters the annotations of an object: what is left of it from there. */
  function IntoAnnotations(metadata: bool, route: seq<Turn>): (rest: Option<seq<Turn>>)
    ensures rest.Some? ==> |rest.value| < |route|
    decreases |route|
  {
    if route == [] then None
    else if metadata && route[0] == Field("annotations") then Some(route[1..])
    else IntoAnnotations(route[0] == Field("metadata"), route[1..])
  }

  /** Outside annotations redaction keeps every route and every shape. */
  lemma {:induction false} RedactKeepsTheRest(v: Json, s: Sensitivity, metadata: bool, route: seq<Turn>)
    requires IntoAnnotations(metadata, route).None?
    ensures var found, was := Find(Redact(v, s, metadata), route), Find(v, route);
            && (found.Some? <==> was.Some?)
            && (found.Some? ==> SameShape(was.value, found.value, _ => false))
    decreases |route|
  {
    if route != [] && Step(v, route[0]).Some? {
      RedactKeepsTheRest(Step(v, route[0]).value, s, route[0] == Field("metadata"), route[1..]);
    }
  }

  lemma {:induction false} FindTwo(v: Json, route: seq<Turn>)
    requires |route| >= 2 && Step(v, route[0]).Some?
    ensures Find(v, route[..2]) == Step(Step(v, route[0]).value, route[1])
  {
    assert route[..2][1..] == [route[1]] && [route[1]][1..] == [];
    assert Find(Step(v, route[0]).value, [route[1]]) == Step(Step(v, route[0]).value, route[1]);
  }

  lemma {:induction false} AnnotationShown(annotations: Json, s: Sensitivity, rest: seq<Turn>)
    requires rest != [] && Find(annotations, rest).Some?
    ensures var raw, found := Step(annotations, rest[0]).value, Find(RedactAnnotations(annotations, s), rest);
            found == if rest[0].Field? && (s.name(rest[0].key) || (raw.String? && s.text(raw.s)))
                     then Find(String("<redacted>"), rest[1..]) else Find(annotations, rest)
  {
  }

  /** The route up to the annotation it leads to or through, if it leads to one. */
  function ToAnnotation(route: seq<Turn>, rest: seq<Turn>): seq<Turn>
    requires |rest| < |route|
  {
    if rest == [] then route else route[..|route| - |rest| + 1]
  }

  /** What a route into annotations finds, given the annotation it leads to or through: the annotations have their keys,
      a sensitive one is replaced by one text, and any other is as it was. */
  ghost predicate HiddenExactly(s: Sensitivity, rest: seq<Turn>, raw: Option<Json>, was: Option<Json>,
                                found: Option<Json>)
  {
    if rest == [] then was.Some? && found.Some? && SameShape(was.value, found.value, _ => false)
    else
      && raw.Some?
      && found == if rest[0].Field? && (s.name(rest[0].key) || (raw.value.String? && s.text(raw.value.s)))
                  then Find(String("<redacted>"), rest[1..]) else was
  }

  /** Under the annotations of any metadata, however deep, exactly the sensitive entries are replaced. */
  lemma {:induction false} RedactHidesExactlySensitive(v: Json, s: Sensitivity, metadata: bool, route: seq<Turn>)
    requires IntoAnnotations(metadata, route).Some? && Find(v, route).Some?
    ensures var rest := IntoAnnotations(metadata, route).value;
            HiddenExactly(s, rest, Find(v, ToAnnotation(route, rest)), Find(v, route),
                          Find(Redact(v, s, metadata), route))
    decreases |route|
  {
    var rest, inner := IntoAnnotations(metadata, route).value, route[1..];
    var next := Step(v, route[0]).value;
    if metadata && route[0] == Field("annotations") {
      if rest != [] {
        FindTwo(v, route);
        AnnotationShown(next, s, rest);
      }
    } else {
      RedactHidesExactlySensitive(next, s, route[0] == Field("metadata"), inner);
      assert Find(v, ToAnnotation(route, rest)) == Find(next, ToAnnotation(inner, rest)) by {
        assert ToAnnotation(route, rest)[1..] == ToAnnotation(inner, rest);
      }
      assert Find(Redact(v, s, metadata), route) == Find(Redact(next, s, route[0] == Field("metadata")), inner);
    }
  }

  // ----- the two as loops that fill fresh maps -----

  /** The entries of a map under some of its keys. */
  ghost predicate Filled(output: map<string, Json>, whole: map<string, Json>, remaining: set<string>) {
    output.Keys == whole.Keys - remaining && forall key :: key in output ==> output[key] == whole[key]
  }

  method CleanKubernetesValue(v: Json, o: Options, metadata: bool) returns (r: Json)
    ensures r == Clean(v, o, metadata)
    decreases v
  {
    if v.Object? {
      var output: map<string, Json>, remaining := map[], v.fields.Keys;
      while remaining != {}
        invariant remaining <= v.fields.Keys && Filled(output, Clean(v, o, metadata).fields, remaining)
        decreases |remaining|
      {
        var key :| key in remaining;
        remaining := remaining - {key};
        if !(metadata && Omitted(o, key)) {
          var child := CleanKubernetesValue(v.fields[key], o, key == "metadata");
          output := output[key := child];
        }
      }
      assert output == Clean(v, o, metadata).fields;
      return Object(output);
    }
    if v.List? {
      var output := [];
      for index := 0 to |v.items|
        invariant output == Clean(v, o, metadata).items[..index]
      {
        var child := CleanKubernetesValue(v.items[index], o, false);
        output := output + [child];
      }
      return List(output);
    }
    r := v;
  }

  method RedactAnnotationMap(v: Json, s: Sensitivity) returns (r: Json)
    ensures r == RedactAnnotations(v, s)
  {
    if !v.Object? {
      return v;
    }
    var output: map<string, Json>, remaining := map[], v.fields.Keys;
    while remaining != {}
      invariant remaining <= v.fields.Keys && Filled(output, RedactAnnotations(v, s).fields, remaining)
      decreases |remaining|
    {
      var key :| key in remaining;
      remaining := remaining - {key};
      output := output[key := if Hidden(s, key, v.fields[key]) then REDACTED else v.fields[key]];
    }
    assert output == RedactAnnotations(v, s).fields;
    r := Object(output);
  }

  method RedactSensitiveAnnotations(v: Json, s: Sensitivity, metadata: bool) returns (r: Json)
    ensures r == Redact(v, s, metadata)
    decreases v
  {
    if v.Object? {
      var output: map<string, Json>, remaining := map[], v.fields.Keys;
      while remaining != {}
        invariant remaining <= v.fields.Keys && Filled(output, Redact(v, s, metadata).fields, remaining)
        decreases |remaining|
      {
        var key :| key in remaining;
        remaining := remaining - {key};
        var child;
        if metadata && key == "annotations" {
          child := RedactAnnotationMap(v.fields[key], s);
        } else {
          child := RedactSensitiveAnnotations(v.fields[key], s, key == "metadata");
        }
        output := output[key := child];
      }
      assert output == Redact(v, s, metadata).fields;
      return Object(output);
    }
    if v.List? {
      var output := [];
      for index := 0 to |v.items|
        invariant output == Redact(v, s, metadata).items[..index]
      {
        var child := RedactSensitiveAnnotations(v.items[index], s, false);
        output := output + [child];
      }
      return List(output);
    }
    r := v;
  }

  // ----- Secrets -----

  /** Every value of an object replaced; anything else is left as it is. */
  function Blank(v: Json): Json {
    if v.Object? then Object(map key | key in v.fields :: REDACTED) else v
  }

  predicate Payload(key: string) { key in {"data", "stringData", "binaryData"} }

  function BlankAnnotations(metadata: Json): Json {
    if metadata.Object? && "annotations" in metadata.fields then
      Object(metadata.fields["annotations" := Blank(metadata.fields["annotations"])])
    else metadata
  }

  function RedactSecret(secret: map<string, Json>): map<string, Json> {
    map key | key in secret ::
      if Payload(key) then Blank(secret[key])
      else if key == "metadata" then BlankAnnotations(secret[key])
      else secret[key]
  }

  function RedactSecretCollection(v: Json): Json {
    if !v.Object? then v
    else if "items" in v.fields && v.fields["items"].List? then
      Object(v.fields["items" := List(RedactItems(v.fields["items"].items))])
    else Object(RedactSecret(v.fields))
  }

  function RedactItems(items: seq<Json>): seq<Json> {
    seq(|items|, i requires 0 <= i < |items| =>
      if items[i].Object? then Object(RedactSecret(items[i].fields)) else items[i])
  }

  /** Two values that differ at most in the values of an object, not in its keys. */
  predicate SameKeys(a: Json, b: Json) {
    a == b || (a.Object? && b.Object? && a.fields.Keys == b.fields.Keys)
  }

  predicate SameMetadata(a: Json, b: Json) {
    || a == b
    || (&& a.Object? && b.Object? && a.fields.Keys == b.fields.Keys
        && forall key :: key in a.fields ==>
             if key == "annotations" then SameKeys(a.fields[key], b.fields[key]) else a.fields[key] == b.fields[key])
  }

  /** Two Secrets that differ at most in the values of their data and of their annotations. */
  predicate SameButSecret(a: map<string, Json>, b: map<string, Json>) {
    && a.Keys == b.Keys
    && forall key :: key in a ==>
         if key in {"data", "stringData", "binaryData"} then SameKeys(a[key], b[key])
         else if key == "metadata" then SameMetadata(a[key], b[key])
         else a[key] == b[key]
  }

  lemma {:induction false} BlankRevealsKeysOnly(a: Json, b: Json)
    requires SameKeys(a, b)
    ensures Blank(a) == Blank(b)
  {
    if a.Object? && b.Object? {
      assert Blank(a).fields == Blank(b).fields;
    }
  }

  lemma {:induction false} BlankAnnotationsRevealsKeysOnly(a: Json, b: Json)
    requires SameMetadata(a, b)
    ensures BlankAnnotations(a) == BlankAnnotations(b)
  {
    if a != b {
      if "annotations" in a.fields {
        BlankRevealsKeysOnly(a.fields["annotations"], b.fields["annotations"]);
      }
      assert BlankAnnotations(a).fields == BlankAnnotations(b).fields;
    }
  }

  /** What a redacted Secret shows does not depend on any value of its data or annotations. */
  lemma {:induction false} RedactedSecretRevealsNothing(a: map<string, Json>, b: map<string, Json>)
    requires SameButSecret(a, b)
    ensures RedactSecret(a) == RedactSecret(b)
  {
    forall key | key in a ensures RedactSecret(a)[key] == RedactSecret(b)[key] {
      if Payload(key) {
        BlankRevealsKeysOnly(a[key], b[key]);
      } else if key == "metadata" {
        BlankAnnotationsRevealsKeysOnly(a[key], b[key]);
      }
    }
  }

  /** The keys stay, and so does every field that is neither data nor annotations. */
  lemma {:induction false} RedactedSecretKeepsTheRest(secret: map<string, Json>, key: string)
    requires key in secret
    ensures RedactSecret(secret).Keys == secret.Keys
    ensures var was, now := secret[key], RedactSecret(secret)[key];
            if key in {"data", "stringData", "binaryData"} then IsBlanked(was, now)
            else if key != "metadata" || !was.Object? then now == was
            else
              && now.Object? && now.fields.Keys == was.fields.Keys
              && forall field :: field in was.fields ==>
                   if field == "annotations" then IsBlanked(was.fields[field], now.fields[field])
                   else now.fields[field] == was.fields[field]
  {
  }

  /** Every value of an object is replaced by one text; anything else stays. */
  ghost predicate IsBlanked(was: Json, now: Json) {
    if was.Object? then
      && now.Object? && now.fields.Keys == was.fields.Keys
      && forall key :: key in now.fields ==> now.fields[key] == String("<redacted>")
    else now == was
  }

  /** A redacted list has the same fields and as many entries, each redacted if it is an object. */
  lemma {:induction false} RedactedListKeepsTheRest(list: map<string, Json>, i: nat)
    requires "items" in list && list["items"].List? && i < |list["items"].items|
    ensures var now := RedactSecretCollection(Object(list));
            && now.Object? && now.fields.Keys == list.Keys && now.fields["items"].List?
            && (forall key :: key in list && key != "items" ==> now.fields[key] == list[key])
            && |now.fields["items"].items| == |list["items"].items|
            && var was, redacted := list["items"].items[i], now.fields["items"].items[i];
               redacted == if was.Object? then Object(RedactSecret(was.fields)) else was
  {
  }

  /** The same for a list of Secrets, entry by entry. */
  lemma {:induction false} RedactedListRevealsNothing(a: map<string, Json>, b: map<string, Json>)
    requires "items" in a && a["items"].List? && "items" in b && b["items"].List?
    requires a.Keys == b.Keys && forall key :: key in a && key != "items" ==> a[key] == b[key]
    requires |a["items"].items| == |b["items"].items|
    requires forall i :: 0 <= i < |a["items"].items| ==>
               var one, other := a["items"].items[i], b["items"].items[i];
               one == other || (one.Object? && other.Object? && SameButSecret(one.fields, other.fields))
    ensures RedactSecretCollection(Object(a)) == RedactSecretCollection(Object(b))
  {
    var one, other := a["items"].items, b["items"].items;
    forall i | 0 <= i < |one| ensures RedactItems(one)[i] == RedactItems(other)[i] {
      if one[i] != other[i] {
        RedactedSecretRevealsNothing(one[i].fields, other[i].fields);
      }
    }
    assert RedactItems(one) == RedactItems(other);
    assert a["items" := List(RedactItems(one))] == b["items" := List(RedactItems(other))];
  }
}
