/**
 The `application/x-www-form-urlencoded` bodies of the token endpoints, as the
 client writes them (raw `key=value` pairs joined by `&`, with nothing
 escaped) and as the test token server reads them (split on `&`, then each
 part on `=`, keeping the piece after the first `=`). The authorization URL's
 query string is written the same way.
 */
module FormEncoding {
  import opened JavaBasics
  import opened JavaStrings

  /** A key and its value. */
  type Field = (string, string)

  function RenderField(f: Field): string
  {
    f.0 + "=" + f.1
  }

  function RenderFields(fs: seq<Field>): (r: seq<string>)
    ensures |r| == |fs|
    ensures forall i :: 0 <= i < |fs| ==> r[i] == RenderField(fs[i])
  {
    if |fs| == 0 then [] else [RenderField(fs[0])] + RenderFields(fs[1..])
  }

  /** The fields written as `k1=v1&k2=v2&...`, without escaping anything. */
  function Encode(fs: seq<Field>): string
  {
    Join(RenderFields(fs), "&")
  }

  // ---------------------------------------------------------------------
  // Writing a body field by field

  lemma {:induction false} JoinSnoc(xs: seq<string>, x: string, sep: string)
    requires |xs| >= 1
    ensures Join(xs + [x], sep) == Join(xs, sep) + sep + x
    decreases |xs|
  {
    if |xs| == 1 {
      JoinCons(xs[0], [x], sep);
      assert xs + [x] == [xs[0]] + [x];
    } else {
      var t := xs[1..];
      assert Join(xs + [x], sep) == xs[0] + sep + Join(t + [x], sep) by {
        JoinCons(xs[0], t + [x], sep);
        assert xs + [x] == [xs[0]] + (t + [x]);
      }
      JoinSnoc(t, x, sep);
      assert Join(xs, sep) == xs[0] + sep + Join(t, sep) by {
        JoinCons(xs[0], t, sep);
        assert xs == [xs[0]] + t;
      }
    }
  }

  lemma EncodeSingle(k: string, v: string)
    ensures Encode([(k, v)]) == k + "=" + v
  {
    assert RenderFields([(k, v)]) == [k + "=" + v];
  }

  /** Appending a field appends `&k=v`, which is how the client builds each
      body with `+=`. */
  lemma EncodeSnoc(fs: seq<Field>, k: string, v: string)
    requires |fs| >= 1
    ensures Encode(fs + [(k, v)]) == Encode(fs) + "&" + k + "=" + v
  {
    assert RenderFields(fs + [(k, v)]) == RenderFields(fs) + [k + "=" + v];
    JoinSnoc(RenderFields(fs), k + "=" + v, "&");
  }

  /** The first `body += "k=" + v` on an empty body writes the one-field encoding. */
  lemma EncodeFirst(k: string, v: string, text: string)
    requires text == k + "="
    ensures "" + text + v == Encode([(k, v)])
  {
    EncodeSingle(k, v);
    assert "" + text == text;
  }

  /** Each further `body += "&k=" + v` appends one field to the encoding. */
  lemma EncodeAppend(fs: seq<Field>, k: string, v: string, text: string)
    requires |fs| >= 1
    requires text == "&" + k + "="
    ensures Encode(fs) + text + v == Encode(fs + [(k, v)])
  {
    EncodeSnoc(fs, k, v);
  }

  /** A `body += "&k=v"` with a constant value appends that field too. */
  lemma EncodeAppendConstant(fs: seq<Field>, k: string, v: string, text: string)
    requires |fs| >= 1
    requires text == "&" + k + "=" + v
    ensures Encode(fs) + text == Encode(fs + [(k, v)])
  {
    EncodeSnoc(fs, k, v);
  }

  // ---------------------------------------------------------------------
  // The test token server's parser

  /** One `key=value` part: `part.split("=")` and pieces 0 and 1. When the
      split yields fewer than two pieces (no `=`, or nothing after it), reading
      piece 1 throws, which `None` stands for. */
  function ParsePart(part: string): (r: Option<Field>)
    ensures r.Some? ==> '=' !in r.value.0 && '=' !in r.value.1
    ensures '=' !in part ==> r.None?
  {
    var kv := Split(part, '=');
    if |kv| < 2 then None else Some((kv[0], kv[1]))
  }

  function ParseParts(parts: seq<string>): (r: Option<seq<Field>>)
    ensures r.Some? <==> forall i :: 0 <= i < |parts| ==> ParsePart(parts[i]).Some?
    ensures r.Some? ==> |r.value| == |parts|
    ensures r.Some? ==> forall i :: 0 <= i < |parts| ==> Some(r.value[i]) == ParsePart(parts[i])
  {
    if |parts| == 0 then Some([])
    else
      match ParsePart(parts[0])
      case None => None
      case Some(f) =>
        match ParseParts(parts[1..])
        case None => None
        case Some(rest) => Some([f] + rest)
  }

  /** The whole body: `body.split("&")`, then every part. The server's loop
      throws at the first bad part before it has acted on any, so a body
      either parses completely or not at all. */
  function Parse(body: string): (r: Option<seq<Field>>)
    ensures r.Some? <==> forall i :: 0 <= i < |Split(body, '&')| ==> ParsePart(Split(body, '&')[i]).Some?
    ensures r.Some? ==> |r.value| == |Split(body, '&')|
    ensures r.Some? ==> forall i :: 0 <= i < |r.value| ==> Some(r.value[i]) == ParsePart(Split(body, '&')[i])
    ensures body == "" ==> r.None?
  {
    ParseParts(Split(body, '&'))
  }

  /** The value the server's `switch` leaves in the variable for `key`: the
      value of the last field with that key, `None` (null) when there is none. */
  function Lookup(fs: seq<Field>, key: string): (r: Option<string>)
    ensures r.None? <==> forall i :: 0 <= i < |fs| ==> fs[i].0 != key
    ensures r.Some? ==>
      exists i :: 0 <= i < |fs| && fs[i] == (key, r.value)
        && forall j :: i < j < |fs| ==> fs[j].0 != key
    decreases |fs|
  {
    if |fs| == 0 then None
    else if fs[|fs| - 1].0 == key then Some(fs[|fs| - 1].1)
    else Lookup(fs[..|fs| - 1], key)
  }

  /** A key and value the round trip survives: neither contains `&` or `=`,
      and the value is not empty (an empty value would leave `key=` with no
      second piece). */
  predicate SafeField(f: Field)
  {
    '&' !in f.0 && '=' !in f.0 && '&' !in f.1 && '=' !in f.1 && f.1 != ""
  }

  /** A part with nothing after its `=` does not parse. */
  lemma ParsePartEmptyValue(k: string)
    requires '=' !in k
    ensures ParsePart(k + "=") == None
  {
    var part := k + "=";
    assert part[|k|] == '=';
    var ps := Pieces(part, '=');
    assert part == k + ['='] + "";
    PiecesAtFirstSeparator(k, "", '=');
    PiecesWithoutSeparator("", '=');
    assert ps == [k, ""];
  }

  /** A value that itself contains `=` is cut at that `=`. */
  lemma ParsePartTruncates(k: string, v: string, w: string)
    requires '=' !in k && '=' !in v && v != ""
    ensures ParsePart(k + "=" + v + "=" + w) == Some((k, v))
  {
    assert k + "=" + v + "=" + w == k + ['='] + (v + ['='] + w);
    SplitFirstTwo(k, v, w, '=');
  }

  lemma ParsePartOfField(f: Field)
    requires SafeField(f)
    ensures ParsePart(RenderField(f)) == Some(f)
  {
    assert RenderField(f) == Join([f.0, f.1], ['=']) by {
      JoinCons(f.0, [f.1], ['=']);
    }
    SplitOfJoin([f.0, f.1], '=');
  }

  lemma {:induction false} ParsePartsOfRendered(fs: seq<Field>)
    requires forall i :: 0 <= i < |fs| ==> SafeField(fs[i])
    ensures ParseParts(RenderFields(fs)) == Some(fs)
    decreases |fs|
  {
    if |fs| > 0 {
      ParsePartOfField(fs[0]);
      ParsePartsOfRendered(fs[1..]);
      assert RenderFields(fs)[1..] == RenderFields(fs[1..]);
      assert [fs[0]] + fs[1..] == fs;
    }
  }

  /** The round trip: the server's parser recovers every field, in order, of a
      body the client encodes, as long as no key or value contains `&` or `=`
      and no value is empty. */
  lemma ParseOfEncode(fs: seq<Field>)
    requires |fs| >= 1
    requires forall i :: 0 <= i < |fs| ==> SafeField(fs[i])
    ensures Parse(Encode(fs)) == Some(fs)
  {
    var parts := RenderFields(fs);
    forall i | 0 <= i < |parts|
      ensures '&' !in parts[i]
    {
      assert parts[i] == fs[i].0 + "=" + fs[i].1;
    }
    assert parts[|parts| - 1][|fs[|fs| - 1].0|] == '=';
    SplitOfJoin(parts, '&');
    ParsePartsOfRendered(fs);
  }

  /** A body with an empty value anywhere does not parse at all: its part
      `key=` has no second piece, and the server's loop throws there. */
  lemma ParseOfEncodeWithEmptyValue(fs: seq<Field>, i: nat)
    requires i < |fs|
    requires forall j :: 0 <= j < |fs| ==> '&' !in fs[j].0 && '&' !in fs[j].1
    requires '=' !in fs[i].0 && fs[i].1 == ""
    ensures Parse(Encode(fs)) == None
  {
    var parts := RenderFields(fs);
    forall j | 0 <= j < |parts|
      ensures '&' !in parts[j]
    {
      assert parts[j] == fs[j].0 + "=" + fs[j].1;
    }
    var last := |fs| - 1;
    assert parts[last][|fs[last].0|] == '=';
    SplitOfJoin(parts, '&');
    assert parts[i] == fs[i].0 + "=";
    ParsePartEmptyValue(fs[i].0);
  }

  /** With distinct keys, looking a key up finds the value stored under it. */
  lemma LookupDistinct(fs: seq<Field>, i: nat)
    requires i < |fs|
    requires forall a, b :: 0 <= a < b < |fs| ==> fs[a].0 != fs[b].0
    ensures Lookup(fs, fs[i].0) == Some(fs[i].1)
  {
  }
}
