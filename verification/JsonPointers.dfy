/** Decoding of JSON Pointers in patch paths (decodeJSONPointer in internal/server/safe_write.go), against the syntax of
    section 3 of RFC 6901. */
module JsonPointers {
  import opened JsonValues
  import opened Sequences

  // ----- the pointer a list of segments denotes -----

  function Escape(segment: string): string {
    if segment == "" then ""
    else
      (if segment[0] == '~' then "~0" else if segment[0] == '/' then "~1" else [segment[0]]) + Escape(segment[1..])
  }

  /** Section 3 of RFC 6901: a tilde becomes ~0, a slash ~1, and every other character stands for itself. */
  lemma {:induction false} EscapeMeans(c: char, rest: string)
    ensures Escape([c] + rest) ==
            (match c case '~' => ['~', '0'] case '/' => ['~', '1'] case other => [other]) + Escape(rest)
  {
    assert ([c] + rest)[1..] == rest;
  }

  function Pointer(segments: seq<string>): string {
    if segments == [] then "" else "/" + Escape(segments[0]) + Pointer(segments[1..])
  }

  // ----- decoding -----

  /** None is the invalid_input error. */
  function Unescape(raw: string): Option<string> {
    if raw == "" then Some("")
    else if raw[0] != '~' then Prepend([raw[0]], Unescape(raw[1..]))
    else if |raw| < 2 || (raw[1] != '0' && raw[1] != '1') then None
    else Prepend(if raw[1] == '0' then "~" else "/", Unescape(raw[2..]))
  }

  function Prepend<T>(first: seq<T>, rest: Option<seq<T>>): Option<seq<T>> {
    match rest case Some(more) => Some(first + more) case None => None
  }

  function UnescapeAll(parts: seq<string>): Option<seq<string>> {
    if parts == [] then Some([])
    else
      match Unescape(parts[0])
      case Some(segment) => Prepend([segment], UnescapeAll(parts[1..]))
      case None => None
  }

  function Decode(path: string): Option<seq<string>> {
    if path == "" || path[0] != '/' then None else UnescapeAll(Split(path[1..], '/'))
  }

  // ----- decoding undoes escaping -----

  lemma {:induction false} UnescapeEscape(segment: string)
    ensures Unescape(Escape(segment)) == Some(segment) && '/' !in Escape(segment)
  {
    if segment != "" {
      UnescapeEscape(segment[1..]);
      var rest := Escape(segment[1..]);
      assert [segment[0]] + segment[1..] == segment;
      if segment[0] == '~' {
        assert ("~0" + rest)[2..] == rest;
      } else if segment[0] == '/' {
        assert ("~1" + rest)[2..] == rest;
      } else {
        assert ([segment[0]] + rest)[1..] == rest;
      }
    }
  }

  lemma {:induction false} EscapeUnescape(raw: string)
    requires Unescape(raw).Some? && '/' !in raw
    ensures Escape(Unescape(raw).value) == raw
  {
    if raw != "" {
      var width := if raw[0] == '~' then 2 else 1;
      EscapeUnescape(raw[width..]);
      var rest := Unescape(raw[width..]).value;
      assert Unescape(raw).value[1..] == rest;
      assert raw == raw[..width] + raw[width..];
    }
  }

  // ----- splitting undoes joining -----

  function Join(parts: seq<string>): string
    requires parts != []
  {
    if |parts| == 1 then parts[0] else parts[0] + "/" + Join(parts[1..])
  }

  lemma {:induction false} SplitFirst(c: char, rest: string)
    ensures Split([c] + rest, '/') ==
            var parts := Split(rest, '/'); if c == '/' then [""] + parts else [[c] + parts[0]] + parts[1..]
  {
    assert ([c] + rest)[1..] == rest;
  }

  lemma {:induction false} SplitWhole(part: string)
    requires '/' !in part
    ensures Split(part, '/') == [part]
  {
    if part != "" {
      SplitWhole(part[1..]);
      assert [part[0]] + part[1..] == part;
    }
  }

  lemma {:induction false} SplitPart(part: string, rest: string)
    requires '/' !in part
    ensures Split(part + "/" + rest, '/') == [part] + Split(rest, '/')
  {
    if part == "" {
      assert part + "/" + rest == ['/'] + rest;
      SplitFirst('/', rest);
    } else {
      SplitPart(part[1..], rest);
      var tail := part[1..] + "/" + rest;
      assert part + "/" + rest == [part[0]] + tail;
      SplitFirst(part[0], tail);
      assert [part[0]] + part[1..] == part;
    }
  }

  lemma {:induction false} SplitJoin(parts: seq<string>)
    requires parts != [] && forall i :: 0 <= i < |parts| ==> '/' !in parts[i]
    ensures Split(Join(parts), '/') == parts
  {
    if |parts| == 1 {
      SplitWhole(parts[0]);
    } else {
      SplitJoin(parts[1..]);
      SplitPart(parts[0], Join(parts[1..]));
      assert [parts[0]] + parts[1..] == parts;
    }
  }

  lemma {:induction false} JoinGrown(c: char, parts: seq<string>)
    requires parts != []
    ensures Join([[c] + parts[0]] + parts[1..]) == [c] + Join(parts)
  {
    var grown := [[c] + parts[0]] + parts[1..];
    assert grown[1..] == parts[1..];
    if |parts| > 1 {
      assert [c] + parts[0] + "/" + Join(parts[1..]) == [c] + (parts[0] + "/" + Join(parts[1..]));
    }
  }

  lemma {:induction false} JoinSplit(text: string)
    ensures Join(Split(text, '/')) == text
  {
    if text != "" {
      var c, rest := text[0], text[1..];
      JoinSplit(rest);
      JoinGrown(c, Split(rest, '/'));
      assert ([""] + Split(rest, '/'))[1..] == Split(rest, '/');
      assert "" + "/" + rest == ['/'] + rest;
      assert text == [c] + rest;
    }
  }

  lemma {:induction false} PartsHaveNoSlash(text: string)
    ensures forall i :: 0 <= i < |Split(text, '/')| ==> '/' !in Split(text, '/')[i]
  {
    if text != "" {
      PartsHaveNoSlash(text[1..]);
      var rest := Split(text[1..], '/');
      assert '/' !in rest[0];
    }
  }

  // ----- whole pointers -----

  function EscapeAll(segments: seq<string>): seq<string> {
    if segments == [] then [] else [Escape(segments[0])] + EscapeAll(segments[1..])
  }

  lemma {:induction false} EscapedParts(segments: seq<string>)
    ensures |EscapeAll(segments)| == |segments| && UnescapeAll(EscapeAll(segments)) == Some(segments)
    ensures forall i :: 0 <= i < |segments| ==> '/' !in EscapeAll(segments)[i]
  {
    if segments != [] {
      EscapedParts(segments[1..]);
      UnescapeEscape(segments[0]);
      assert EscapeAll(segments)[1..] == EscapeAll(segments[1..]);
      assert [segments[0]] + segments[1..] == segments;
    }
  }

  lemma {:induction false} PointerJoins(segments: seq<string>)
    requires segments != []
    ensures EscapeAll(segments) != [] && Pointer(segments) == "/" + Join(EscapeAll(segments))
  {
    var parts := EscapeAll(segments);
    assert parts[1..] == EscapeAll(segments[1..]);
    if |segments| > 1 {
      PointerJoins(segments[1..]);
      assert "/" + parts[0] + ("/" + Join(parts[1..])) == "/" + (parts[0] + "/" + Join(parts[1..]));
    } else {
      assert "/" + parts[0] + "" == "/" + parts[0];
    }
  }

  lemma {:induction false} UnescapedParts(parts: seq<string>)
    requires UnescapeAll(parts).Some? && forall i :: 0 <= i < |parts| ==> '/' !in parts[i]
    ensures |UnescapeAll(parts).value| == |parts|
    ensures Pointer(UnescapeAll(parts).value) == if parts == [] then "" else "/" + Join(parts)
  {
    if parts != [] {
      UnescapedParts(parts[1..]);
      EscapeUnescape(parts[0]);
      assert UnescapeAll(parts).value[1..] == UnescapeAll(parts[1..]).value;
    }
  }

  /** The pointer of any segments decodes to them; and since no segments at all denote the whole document, which a path
      must not, exactly the empty list is refused. */
  lemma {:induction false} DecodePointer(segments: seq<string>)
    ensures Decode(Pointer(segments)) == if segments == [] then None else Some(segments)
  {
    if segments != [] {
      EscapedParts(segments);
      PointerJoins(segments);
      SplitJoin(EscapeAll(segments));
    }
  }

  /** Every accepted path is the pointer of the segments it decodes to. */
  lemma {:induction false} PointerDecode(path: string)
    requires Decode(path).Some?
    ensures Pointer(Decode(path).value) == path && Decode(path).value != []
  {
    JoinSplit(path[1..]);
    PartsHaveNoSlash(path[1..]);
    UnescapedParts(Split(path[1..], '/'));
    assert "/" + path[1..] == path;
  }

  /** The accepted paths are exactly the pointers of non-empty segment lists, and no two paths decode alike. */
  lemma {:induction false} DecodeIsABijection(path: string, other: string)
    ensures Decode(path).Some? <==> exists segments :: segments != [] && Pointer(segments) == path
    ensures Decode(path).Some? && Decode(path) == Decode(other) ==> path == other
  {
    if Decode(path).Some? {
      PointerDecode(path);
      if Decode(path) == Decode(other) {
        PointerDecode(other);
      }
    }
    if segments :| segments != [] && Pointer(segments) == path {
      DecodePointer(segments);
    }
  }

  // ----- the decoder itself -----

  lemma {:induction false} PrependNothing<T>(rest: Option<seq<T>>)
    ensures Prepend([], rest) == rest
  {
    if rest.Some? {
      assert [] + rest.value == rest.value;
    }
  }

  lemma {:induction false} PrependTwice<T>(a: seq<T>, b: seq<T>, rest: Option<seq<T>>)
    ensures Prepend(a, Prepend(b, rest)) == Prepend(a + b, rest)
  {
    if rest.Some? {
      assert a + (b + rest.value) == (a + b) + rest.value;
    }
  }

  /** One segment, byte by byte. */
  method DecodeSegment(raw: string) returns (segment: Option<string>)
    ensures segment == Unescape(raw)
  {
    var decoded, offset := "", 0;
    assert raw[0..] == raw;
    PrependNothing(Unescape(raw));
    while offset < |raw|
      invariant offset <= |raw| && Unescape(raw) == Prepend(decoded, Unescape(raw[offset..]))
    {
      var rest := raw[offset..];
      if raw[offset] != '~' {
        PrependTwice(decoded, [raw[offset]], Unescape(rest[1..]));
        assert rest[1..] == raw[offset + 1..];
        decoded := decoded + [raw[offset]];
        offset := offset + 1;
        continue;
      }
      if offset + 1 >= |raw| || (raw[offset + 1] != '0' && raw[offset + 1] != '1') {
        return None;
      }
      assert rest[2..] == raw[offset + 2..];
      offset := offset + 1;
      var plain := if raw[offset] == '0' then "~" else "/";
      PrependTwice(decoded, plain, Unescape(rest[2..]));
      decoded := decoded + plain;
      offset := offset + 1;
    }
    assert decoded + "" == decoded;
    segment := Some(decoded);
  }

  method DecodeJsonPointer(path: string) returns (segments: Option<seq<string>>)
    ensures segments == Decode(path)
  {
    if path == "" || path[0] != '/' {
      return None;
    }
    var raws := Split(path[1..], '/');
    var done := [];
    assert raws[0..] == raws;
    PrependNothing(UnescapeAll(raws));
    for index := 0 to |raws|
      invariant UnescapeAll(raws) == Prepend(done, UnescapeAll(raws[index..]))
    {
      var segment := DecodeSegment(raws[index]);
      if segment.None? {
        return None;
      }
      assert raws[index..][1..] == raws[index + 1..];
      PrependTwice(done, [segment.value], UnescapeAll(raws[index + 1..]));
      done := done + [segment.value];
    }
    assert raws[|raws|..] == [] && done + [] == done;
    segments := Some(done);
  }
}
