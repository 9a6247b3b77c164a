/** `key=value` pairs joined by `&`, as the gateway writes the item server's listing URL,
    and the reading that splits them back apart. */
module QueryString {
  import opened Http

  datatype Param = Param(key: string, value: string)

  function Field(p: Param): string
  {
    p.key + "=" + p.value
  }

  /** `k1=v1&k2=v2&...`; built from the right, as the gateway appends to its URL. */
  function Render(ps: seq<Param>): string
  {
    if ps == [] then ""
    else if |ps| == 1 then Field(ps[0])
    else Render(ps[..|ps| - 1]) + "&" + Field(ps[|ps| - 1])
  }

  function LastIndex(s: string, c: char): (r: Option<nat>)
    ensures r.None? <==> c !in s
    ensures r.Some? ==> r.value < |s| && s[r.value] == c && c !in s[r.value + 1..]
  {
    if s == [] then None
    else if s[|s| - 1] == c then Some(|s| - 1)
    else
      var r := LastIndex(s[..|s| - 1], c);
      assert r.Some? ==> s[r.value + 1..] == s[..|s| - 1][r.value + 1..] + [s[|s| - 1]];
      assert r.None? ==> s == s[..|s| - 1] + [s[|s| - 1]];
      r
  }

  function FirstIndex(s: string, c: char): (r: Option<nat>)
    ensures r.None? <==> c !in s
    ensures r.Some? ==> r.value < |s| && s[r.value] == c && c !in s[..r.value]
  {
    if s == [] then None
    else if s[0] == c then Some(0)
    else
      match FirstIndex(s[1..], c)
      case None => None
      case Some(i) =>
        assert s[..i + 1] == [s[0]] + s[1..][..i];
        Some(i + 1)
  }

  /** Splits at every `sep`; a text without `sep` is one piece. */
  function Split(s: string, sep: char): seq<string>
    decreases |s|
  {
    match LastIndex(s, sep)
    case None => [s]
    case Some(i) => Split(s[..i], sep) + [s[i + 1..]]
  }

  /** Reads one `key=value` field: the key ends at the first `=`; no `=` means an empty value. */
  function ReadField(f: string): Param
  {
    match FirstIndex(f, '=')
    case None => Param(f, "")
    case Some(i) => Param(f[..i], f[i + 1..])
  }

  function ReadFields(fs: seq<string>): (r: seq<Param>)
    ensures |r| == |fs|
  {
    if fs == [] then [] else ReadFields(fs[..|fs| - 1]) + [ReadField(fs[|fs| - 1])]
  }

  /** The pairs a server reads from a query string, before any percent-decoding. */
  function Parse(query: string): seq<Param>
  {
    ReadFields(Split(query, '&'))
  }

  /** A pair whose key and value hold neither separator survives the round trip. Without
      `%` or `+` either, a server's percent-decoding, which turns `+` into a space and `%xx`
      into a character, leaves the text as it is, so `Parse` reads what such a server reads. */
  predicate Plain(p: Param)
  {
    && '&' !in p.key && '&' !in p.value && '=' !in p.key && '=' !in p.value
    && '%' !in p.key && '%' !in p.value && '+' !in p.key && '+' !in p.value
  }

  lemma FieldRoundTrip(p: Param)
    requires Plain(p)
    ensures '&' !in Field(p)
    ensures ReadField(Field(p)) == p
  {
    var f := Field(p);
    assert f[|p.key|] == '=';
    assert f[..|p.key|] == p.key;
    assert f[|p.key| + 1..] == p.value;
    assert '=' in f[..|p.key| + 1];
  }

  /** Splitting after one more `&`-free piece adds exactly that piece. */
  lemma SplitAppend(a: string, b: string)
    requires '&' !in b
    ensures Split(a + "&" + b, '&') == Split(a, '&') + [b]
  {
    var s := a + "&" + b;
    assert s[|a|] == '&';
    assert s[|a| + 1..] == b && s[..|a|] == a;
  }

  lemma {:induction false} SplitRender(ps: seq<Param>)
    requires ps != []
    requires forall p :: p in ps ==> Plain(p)
    ensures |Split(Render(ps), '&')| == |ps|
    ensures forall k :: 0 <= k < |ps| ==> Split(Render(ps), '&')[k] == Field(ps[k])
  {
    if |ps| == 1 {
      FieldRoundTrip(ps[0]);
      assert Split(Render(ps), '&') == [Field(ps[0])];
    } else {
      var init, last := ps[..|ps| - 1], ps[|ps| - 1];
      assert forall p :: p in init ==> p in ps;
      FieldRoundTrip(last);
      SplitRender(init);
      assert Render(ps) == Render(init) + "&" + Field(last);
      SplitAppend(Render(init), Field(last));
      var parts := Split(Render(ps), '&');
      assert parts == Split(Render(init), '&') + [Field(last)];
      forall k | 0 <= k < |ps| ensures parts[k] == Field(ps[k]) {
        if k < |init| {
          assert ps[k] == init[k];
        }
      }
    }
  }

  /** Reading a rendered query gives back exactly the pairs, in order. */
  lemma RenderParseRoundTrip(ps: seq<Param>)
    requires ps != []
    requires forall p :: p in ps ==> Plain(p)
    ensures Parse(Render(ps)) == ps
  {
    SplitRender(ps);
    var fs := Split(Render(ps), '&');
    ReadFieldsPointwise(fs);
    forall k | 0 <= k < |ps| ensures Parse(Render(ps))[k] == ps[k] {
      FieldRoundTrip(ps[k]);
    }
  }

  lemma {:induction false} ReadFieldsPointwise(fs: seq<string>)
    ensures forall k :: 0 <= k < |fs| ==> ReadFields(fs)[k] == ReadField(fs[k])
  {
    if fs != [] {
      ReadFieldsPointwise(fs[..|fs| - 1]);
    }
  }
}
