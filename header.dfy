/**
 * Parsing of the `hass-listen-entities` handshake header (src/main.rs,
 * `HeaderParser::on_request`) and the filter set built from it.
 */
module Header {
  import opened Wrappers

  newtype byte = b: int | 0 <= b < 256

  /** The header a client uses to name the entities it wants. */
  const ListenEntities: string := "hass-listen-entities"

  /** The separator between entity ids in the header value. */
  const Comma: char := ','

  /** A request's header fields in arrival order. The HTTP library stores
    * names lower-cased, so names here are compared exactly. */
  type Headers = seq<(string, seq<byte>)>

  /** The first value stored under `name`, as `HeaderMap::get` returns it. */
  function Get(headers: Headers, name: string): (r: Option<seq<byte>>)
    ensures r.None? <==> forall i :: 0 <= i < |headers| ==> headers[i].0 != name
    ensures r.Some? ==> exists i :: 0 <= i < |headers| && headers[i] == (name, r.value)
                                    && forall j :: 0 <= j < i ==> headers[j].0 != name
  {
    if |headers| == 0 then None
    else if headers[0].0 == name then Some(headers[0].1)
    else
      var r := Get(headers[1..], name);
      assert r.Some? ==> exists i :: 0 <= i < |headers[1..]| && headers[1..][i] == (name, r.value)
                                      && forall j :: 0 <= j < i ==> headers[1..][j].0 != name;
      assert forall i :: 1 <= i < |headers| ==> headers[i] == headers[1..][i - 1];
      r
  }

  /** A byte the HTTP library accepts in a textual header value: visible
    * ASCII or a horizontal tab. */
  predicate VisibleAscii(b: byte)
  {
    (32 <= b < 127) || b == 9
  }

  /** `HeaderValue::to_str`: the value as text when every byte is visible
    * ASCII, and no text otherwise. */
  function ToStr(v: seq<byte>): (r: Option<string>)
    ensures r.Some? <==> forall i :: 0 <= i < |v| ==> VisibleAscii(v[i])
    ensures r.Some? ==> |r.value| == |v| && forall i :: 0 <= i < |v| ==> r.value[i] as int == v[i] as int
  {
    if forall i :: 0 <= i < |v| ==> VisibleAscii(v[i])
    then Some(seq(|v|, i requires 0 <= i < |v| => v[i] as int as char))
    else None
  }

  /** The number of occurrences of `c` in `s`. */
  function Occurrences(s: string, c: char): nat
  {
    if |s| == 0 then 0
    else (if s[0] == c then 1 else 0) + Occurrences(s[1..], c)
  }

  /** `str::split` on a single character: the maximal pieces between
    * separators, including empty pieces, so there is always one more piece
    * than there are separators. */
  function Split(s: string, sep: char): (r: seq<string>)
    ensures |r| == Occurrences(s, sep) + 1
    ensures forall k :: 0 <= k < |r| ==> sep !in r[k]
  {
    if |s| == 0 then [""]
    else
      var rest := Split(s[1..], sep);
      if s[0] == sep then [""] + rest
      else [[s[0]] + rest[0]] + rest[1..]
  }

  /** The pieces with `sep` between consecutive ones. */
  function Join(pieces: seq<string>, sep: char): string
  {
    if |pieces| == 0 then ""
    else if |pieces| == 1 then pieces[0]
    else pieces[0] + [sep] + Join(pieces[1..], sep)
  }

  lemma JoinCons(piece: string, rest: seq<string>, sep: char)
    ensures Join([piece] + rest, sep) == if rest == [] then piece else piece + [sep] + Join(rest, sep)
  {
    assert ([piece] + rest)[1..] == rest;
  }

  /** Joining the pieces of a split gives back the text. */
  lemma {:induction false} JoinSplit(s: string, sep: char)
    ensures Join(Split(s, sep), sep) == s
  {
    if |s| > 0 {
      var rest := Split(s[1..], sep);
      JoinSplit(s[1..], sep);
      if s[0] == sep {
        JoinCons("", rest, sep);
      } else {
        JoinCons([s[0]] + rest[0], rest[1..], sep);
        JoinCons(rest[0], rest[1..], sep);
        assert [rest[0]] + rest[1..] == rest;
      }
    }
  }

  lemma {:induction false} SplitWithoutSeparator(a: string, sep: char)
    requires sep !in a
    ensures Split(a, sep) == [a]
  {
    if |a| > 0 {
      SplitWithoutSeparator(a[1..], sep);
      assert [a[0]] + a[1..] == a;
    }
  }

  lemma {:induction false} SplitAfterPiece(a: string, t: string, sep: char)
    requires sep !in a
    ensures Split(a + [sep] + t, sep) == [a] + Split(t, sep)
  {
    if |a| == 0 {
      assert (a + [sep] + t)[1..] == t;
    } else {
      assert (a + [sep] + t)[1..] == a[1..] + [sep] + t;
      SplitAfterPiece(a[1..], t, sep);
      assert [a[0]] + a[1..] == a;
    }
  }

  /** Splitting a join of separator-free pieces gives back the pieces. */
  lemma {:induction false} SplitJoin(pieces: seq<string>, sep: char)
    requires |pieces| >= 1
    requires forall k :: 0 <= k < |pieces| ==> sep !in pieces[k]
    ensures Split(Join(pieces, sep), sep) == pieces
  {
    if |pieces| == 1 {
      SplitWithoutSeparator(pieces[0], sep);
    } else {
      SplitJoin(pieces[1..], sep);
      SplitAfterPiece(pieces[0], Join(pieces[1..], sep), sep);
      assert [pieces[0]] + pieces[1..] == pieces;
    }
  }

  /** `on_request`: the ids listed in the header, or no list when the header
    * is missing or its value is not visible ASCII. */
  function ParseEntities(headers: Headers): (r: Option<seq<string>>)
  {
    match Get(headers, ListenEntities)
    case None => None
    case Some(v) =>
      match ToStr(v)
      case None => None
      case Some(text) => Some(Split(text, Comma))
  }

  /** A list is produced exactly when the header is present with a visible
    * ASCII value; it is then that value split on commas, which joins back to
    * the value and has one piece more than the value has commas. */
  lemma ParseEntitiesSpec(headers: Headers)
    ensures ParseEntities(headers).Some? <==>
              Get(headers, ListenEntities).Some? && ToStr(Get(headers, ListenEntities).value).Some?
    ensures ParseEntities(headers).Some? ==>
              var text := ToStr(Get(headers, ListenEntities).value).value;
              && ParseEntities(headers).value == Split(text, Comma)
              && Join(ParseEntities(headers).value, Comma) == text
              && |ParseEntities(headers).value| == Occurrences(text, Comma) + 1
  {
    var g := Get(headers, ListenEntities);
    if g.Some? && ToStr(g.value).Some? {
      JoinSplit(ToStr(g.value).value, Comma);
    }
  }

  /** An empty header value yields one empty id, not "no filter". */
  lemma EmptyHeaderGivesOneEmptyId(headers: Headers)
    requires Get(headers, ListenEntities) == Some([])
    ensures ParseEntities(headers) == Some([""])
  {
  }

  /** The filter set: the pieces as a set, with duplicates collapsed and
    * nothing trimmed (src/main.rs `into_iter().collect()` into a HashSet). */
  function FilterOf(parsed: Option<seq<string>>): (r: Option<set<string>>)
    ensures r.Some? <==> parsed.Some?
    ensures r.Some? ==> forall id :: id in r.value <==> id in parsed.value
  {
    match parsed
    case None => None
    case Some(pieces) => Some(set p | p in pieces)
  }

  /** Collapsing duplicates never makes the set larger than the list. */
  lemma {:induction false} FilterNoLargerThanList(pieces: seq<string>)
    ensures |FilterOf(Some(pieces)).value| <= |pieces|
  {
    if |pieces| > 0 {
      FilterNoLargerThanList(pieces[1..]);
      var tail := FilterOf(Some(pieces[1..])).value;
      assert FilterOf(Some(pieces)).value == tail + {pieces[0]};
    }
  }

  /** Ids are matched as written: "a, b" selects "a" and " b", not "b". */
  lemma SpacesAreKept()
    ensures FilterOf(Some(Split("a, b", Comma))) == Some({"a", " b"})
  {
    SplitWithoutSeparator(" b", Comma);
    SplitAfterPiece("a", " b", Comma);
    assert "a" + [Comma] + " b" == "a, b";
    assert Split("a, b", Comma) == ["a", " b"];
    assert (set p | p in ["a", " b"]) == {"a", " b"};
  }
}
