/** Search cursors as text, and listings that follow them (encodeCursor and decodeCursor in catalog.go). */
module Cursors {
  import opened JsonValues
  import opened Search
  import opened Decimals

  /** Unpadded URL base64, as far as cursors rely on it. */
  datatype Base64 = Base64(encode: string -> string, decode: string -> Option<string>)

  ghost predicate Faithful(b: Base64) {
    forall text :: b.decode(b.encode(text)) == Some(text) && (text != "" ==> b.encode(text) != "")
  }

  // ----- cursors -----

  function EncodeCursor(b: Base64, index: nat): string { b.encode(Itoa(index)) }

  /** None is the invalid_cursor error. */
  function DecodeCursor(b: Base64, cursor: string): Option<nat> {
    if cursor == "" then Some(0)
    else
      match b.decode(cursor)
      case None => None
      case Some(data) =>
        match Atoi(data)
        case None => None
        case Some(index) => if index < 0 then None else Some(index)
  }

  /** Encoding is never the empty cursor, and is undone by decoding exactly for the indexes a machine integer holds. */
  lemma {:induction false} CursorRoundTrip(b: Base64, index: nat)
    requires Faithful(b)
    ensures EncodeCursor(b, index) != ""
    ensures DecodeCursor(b, EncodeCursor(b, index)) == if index <= MAX_INT then Some(index) else None
  {
    ItoaReadsBack(index);
    assert IsDigit(Itoa(index)[0]);
    assert b.decode(b.encode(Itoa(index))) == Some(Itoa(index));
  }

  /** Only a non-empty decimal number, with at most a sign before it, that is neither negative nor beyond a machine
      integer is a cursor; the empty text is the start. */
  lemma {:induction false} CursorsAreNumbers(b: Base64, cursor: string)
    requires DecodeCursor(b, cursor).Some?
    ensures cursor == "" ==> DecodeCursor(b, cursor) == Some(0)
    ensures cursor != "" ==>
              && b.decode(cursor).Some?
              && var text := b.decode(cursor).value;
                 var digits := if text != "" && text[0] in {'+', '-'} then text[1..] else text;
                 && digits != "" && AllDigits(digits) && DecodeCursor(b, cursor).value == Magnitude(digits) <= MAX_INT
                 && (text[0] == '-' ==> Magnitude(digits) == 0)
  {
  }

  /** A page as a caller sees it: the next cursor is text, empty at the end. */
  datatype TextPage = Refused | Shown(found: seq<CatalogItem>, next: string)

  function TextPageAt(b: Base64, auth: Authority, q: Query, items: seq<CatalogItem>, cursor: string): TextPage {
    match DecodeCursor(b, cursor)
    case None => Refused
    case Some(start) =>
      match PageAt(auth, q, items, start)
      case Failed => Refused
      case InvalidCursor => Refused
      case Listed(found, next) => Shown(found, if next.None? then "" else EncodeCursor(b, next.value))
  }

  /** The pages a caller sees who asks with a cursor, then with each cursor it is given, until one is empty. */
  ghost predicate Listing(b: Base64, auth: Authority, q: Query, items: seq<CatalogItem>, cursor: string,
                          pages: seq<TextPage>)
    decreases |pages|
  {
    && pages != [] && pages[0] == TextPageAt(b, auth, q, items, cursor)
    && if pages[0].Refused? || pages[0].next == "" then |pages| == 1
       else Listing(b, auth, q, items, pages[0].next, pages[1..])
  }

  ghost function Gathered(pages: seq<TextPage>): Option<seq<CatalogItem>> {
    if pages == [] then Some([])
    else if pages[0].Refused? || Gathered(pages[1..]).None? then None
    else Some(pages[0].found + Gathered(pages[1..]).value)
  }

  /** Whatever cursor text stands for an index, the listing from it ends and gathers what Collect collects. */
  lemma {:induction false} ListingCollects(b: Base64, auth: Authority, q: Query, items: seq<CatalogItem>,
                                           cursor: string, start: nat)
    returns (pages: seq<TextPage>)
    requires Faithful(b) && q.limit > 0 && start <= |Matching(q, items)| <= MAX_INT
    requires DecodeCursor(b, cursor) == Some(start)
    ensures Listing(b, auth, q, items, cursor, pages) && Gathered(pages) == Collect(auth, q, items, start)
    decreases |Matching(q, items)| - start
  {
    var first := TextPageAt(b, auth, q, items, cursor);
    match PageAt(auth, q, items, start)
    case Failed => pages := [first];
    case InvalidCursor => pages := [first];
    case Listed(found, None) =>
      pages := [first];
      assert Gathered(pages[1..]) == Some([]) && found + [] == found;
    case Listed(found, Some(next)) =>
      PageAdvances(auth, q, items, start);
      CursorRoundTrip(b, next);
      var rest := ListingCollects(b, auth, q, items, first.next, next);
      pages := [first] + rest;
      assert pages[1..] == rest;
  }

  lemma {:induction false} ListingIsUnique(b: Base64, auth: Authority, q: Query, items: seq<CatalogItem>,
                                           cursor: string,
                                           one: seq<TextPage>, other: seq<TextPage>)
    requires Listing(b, auth, q, items, cursor, one) && Listing(b, auth, q, items, cursor, other)
    ensures one == other
    decreases |one|
  {
    if !(one[0].Refused? || one[0].next == "") {
      ListingIsUnique(b, auth, q, items, one[0].next, one[1..], other[1..]);
    }
    assert one == [one[0]] + one[1..] && other == [other[0]] + other[1..];
  }

  /** What was gathered is the whole listing: exactly the matching visible capabilities, in catalog order and once each,
      unless a review of one of them cannot be answered, when the listing is refused. */
  ghost predicate WholeListing(auth: Authority, q: Query, items: seq<CatalogItem>, gathered: Option<seq<CatalogItem>>) {
    && (gathered.Some? <==> AllDecided(auth, q, items))
    && (gathered.Some? ==> Selected(gathered.value, items, Wanted(auth, q)))
  }

  /** A caller who starts with the empty cursor and follows the cursors it is given always reaches the end, and gathers
      the whole listing. */
  lemma {:induction false} FollowingTextCursors(b: Base64, auth: Authority, q: Query, items: seq<CatalogItem>)
    requires Faithful(b) && q.limit > 0 && |Matching(q, items)| <= MAX_INT
    ensures exists pages :: Listing(b, auth, q, items, "", pages)
    ensures forall pages :: Listing(b, auth, q, items, "", pages) ==> WholeListing(auth, q, items, Gathered(pages))
  {
    FollowingCursorsListsEverything(auth, q, items);
    var pages := ListingCollects(b, auth, q, items, "", 0);
    forall other | Listing(b, auth, q, items, "", other) ensures other == pages {
      ListingIsUnique(b, auth, q, items, "", pages, other);
    }
  }
}
