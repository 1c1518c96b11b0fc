/**
 * Comma-separated records as both `make_csv.py` copies write them, and a reader for one
 * record following section 2 of RFC 4180: fields separated by commas, a field either bare
 * (no comma, no double quote) or enclosed in double quotes with each inner double quote
 * doubled.
 */
module Csv {
  import opened Common

  /** Doubles every double quote: `str.replace('"', '""')`. */
  function Escape(s: string): (r: string)
    ensures |r| >= |s|
  {
    if s == [] then []
    else (if s[0] == '"' then ['"', '"'] else [s[0]]) + Escape(s[1..])
  }

  /** A field as written: enclosed in double quotes, or bare as it is. */
  datatype Cell = Quoted(text: string) | Bare(text: string)

  function Render(c: Cell): string
  {
    match c
    case Quoted(t) => ['"'] + Escape(t) + ['"']
    case Bare(t) => t
  }

  /** A bare field must hold neither a comma nor a double quote. */
  predicate Plain(c: Cell)
  {
    c.Bare? ==> forall i :: 0 <= i < |c.text| ==> c.text[i] != ',' && c.text[i] != '"'
  }

  function Renders(cs: seq<Cell>): (r: seq<string>)
    ensures |r| == |cs| && forall i :: 0 <= i < |cs| ==> r[i] == Render(cs[i])
  {
    if cs == [] then [] else [Render(cs[0])] + Renders(cs[1..])
  }

  function Texts(cs: seq<Cell>): (r: seq<string>)
    ensures |r| == |cs| && forall i :: 0 <= i < |cs| ==> r[i] == cs[i].text
  {
    if cs == [] then [] else [cs[0].text] + Texts(cs[1..])
  }

  /** `','.join(fields)`. */
  function Join(fs: seq<string>): string
  {
    if fs == [] then []
    else if |fs| == 1 then fs[0]
    else fs[0] + [','] + Join(fs[1..])
  }

  /** A character that is neither a comma nor in any field is not in the joined record. */
  lemma {:induction false} JoinAvoids(fs: seq<string>, ch: char)
    requires ch != ','
    requires forall i, j :: 0 <= i < |fs| && 0 <= j < |fs[i]| ==> fs[i][j] != ch
    ensures forall j :: 0 <= j < |Join(fs)| ==> Join(fs)[j] != ch
  {
    if |fs| > 1 {
      JoinAvoids(fs[1..], ch);
      assert forall j :: 0 <= j < |fs[0]| ==> fs[0][j] != ch;
    }
  }

  /** The characters up to the first comma, and the rest from that comma on. */
  function ParseBare(s: string): (r: (string, string))
    ensures r.0 + r.1 == s
    ensures forall i :: 0 <= i < |r.0| ==> r.0[i] != ','
    ensures r.1 == [] || r.1[0] == ','
  {
    if s == [] || s[0] == ',' then ([], s)
    else
      var r := ParseBare(s[1..]);
      ([s[0]] + r.0, r.1)
  }

  /**
   * The inside of a quoted field, read after its opening quote: a doubled quote stands
   * for one, a lone quote closes the field. `None` when the field is never closed.
   */
  function ParseQuoted(s: string): (r: Option<(string, string)>)
    ensures r.Some? ==> |r.value.1| < |s|
  {
    if s == [] then None
    else if s[0] == '"' then
      if |s| >= 2 && s[1] == '"' then
        match ParseQuoted(s[2..])
        case None => None
        case Some((f, rest)) => Some((['"'] + f, rest))
      else Some(([], s[1..]))
    else
      match ParseQuoted(s[1..])
      case None => None
      case Some((f, rest)) => Some(([s[0]] + f, rest))
  }

  /** The fields of one record; `None` when the text is not a well-formed record. */
  function ParseFields(s: string): Option<seq<string>>
    decreases |s|, 1
  {
    if |s| > 0 && s[0] == '"' then
      match ParseQuoted(s[1..])
      case None => None
      case Some((f, rest)) => After(f, rest)
    else
      var (f, rest) := ParseBare(s);
      if exists i :: 0 <= i < |f| && f[i] == '"' then None
      else After(f, rest)
  }

  /** The record after a field `f`: the end, or a comma and the following fields. */
  function After(f: string, rest: string): Option<seq<string>>
    decreases |rest|, 0
  {
    if rest == [] then Some([f])
    else if rest[0] != ',' then None
    else
      match ParseFields(rest[1..])
      case None => None
      case Some(fs) => Some([f] + fs)
  }

  lemma {:induction false} ParseEscaped(x: string, rest: string)
    requires rest == [] || rest[0] != '"'
    ensures ParseQuoted(Escape(x) + ['"'] + rest) == Some((x, rest))
  {
    if x != [] {
      ParseEscaped(x[1..], rest);
      var e := Escape(x[1..]) + ['"'] + rest;
      assert Escape(x) + ['"'] + rest == (if x[0] == '"' then ['"', '"'] else [x[0]]) + e;
      if x[0] == '"' {
        ParseDoubledQuote(e);
      } else {
        ParseInnerChar(x[0], e);
      }
      assert [x[0]] + x[1..] == x;
    } else {
      assert Escape(x) + ['"'] + rest == ['"'] + rest;
      assert (['"'] + rest)[1..] == rest;
    }
  }

  /** A doubled quote inside a quoted field reads as one quote. */
  lemma ParseDoubledQuote(e: string)
    ensures ParseQuoted(['"', '"'] + e)
         == match ParseQuoted(e) case None => None case Some((f, rest)) => Some((['"'] + f, rest))
  {
    assert (['"', '"'] + e)[2..] == e;
  }

  /** Any other character inside a quoted field reads as itself. */
  lemma ParseInnerChar(ch: char, e: string)
    requires ch != '"'
    ensures ParseQuoted([ch] + e)
         == match ParseQuoted(e) case None => None case Some((f, rest)) => Some(([ch] + f, rest))
  {
    assert ([ch] + e)[1..] == e;
  }

  lemma {:induction false} ParsePlain(x: string, rest: string)
    requires forall i :: 0 <= i < |x| ==> x[i] != ','
    requires rest == [] || rest[0] == ','
    ensures ParseBare(x + rest) == (x, rest)
  {
    if x != [] {
      var s := x + rest;
      assert s[0] == x[0] && s[1..] == x[1..] + rest;
      ParsePlain(x[1..], rest);
      assert x[0] != ',';
      assert [x[0]] + x[1..] == x;
    } else {
      assert x + rest == rest;
    }
  }

  lemma ParseQuotedCell(x: string, rest: string)
    requires rest == [] || rest[0] == ','
    ensures ParseFields(Render(Quoted(x)) + rest) == After(x, rest)
  {
    var tail := Escape(x) + ['"'] + rest;
    var s := ['"'] + tail;
    assert Render(Quoted(x)) + rest == s;
    ParseEscaped(x, rest);
    ParseFieldsQuoted(s);
    assert s[1..] == tail;
  }

  /** A record opening with a double quote starts with a quoted field. */
  lemma ParseFieldsQuoted(s: string)
    requires |s| > 0 && s[0] == '"'
    ensures ParseFields(s) == match ParseQuoted(s[1..]) case None => None case Some((f, rest)) => After(f, rest)
  {
  }

  lemma ParseBareCell(x: string, rest: string)
    requires Plain(Bare(x))
    requires rest == [] || rest[0] == ','
    ensures ParseFields(Render(Bare(x)) + rest) == After(x, rest)
  {
    ParsePlain(x, rest);
    if x == [] {
      assert x + rest == rest;
    } else {
      assert (x + rest)[0] == x[0];
    }
  }

  lemma ParseOneCell(c: Cell, rest: string)
    requires Plain(c)
    requires rest == [] || rest[0] == ','
    ensures ParseFields(Render(c) + rest) == After(c.text, rest)
  {
    if c.Quoted? {
      ParseQuotedCell(c.text, rest);
    } else {
      ParseBareCell(c.text, rest);
    }
  }

  /** Reading back a record of rendered cells recovers every cell's text, one field per cell. */
  lemma {:induction false} ReadBack(cs: seq<Cell>)
    requires |cs| >= 1
    requires forall i :: 0 <= i < |cs| ==> Plain(cs[i])
    ensures ParseFields(Join(Renders(cs))) == Some(Texts(cs))
  {
    if |cs| == 1 {
      assert Renders(cs) == [Render(cs[0])];
      ParseOneCell(cs[0], []);
      assert Render(cs[0]) + [] == Render(cs[0]);
      assert Texts(cs) == [cs[0].text];
    } else {
      var rest := [','] + Join(Renders(cs[1..]));
      assert Join(Renders(cs)) == Render(cs[0]) + rest;
      ReadBack(cs[1..]);
      ParseOneCell(cs[0], rest);
      assert rest[1..] == Join(Renders(cs[1..]));
      assert Texts(cs) == [cs[0].text] + Texts(cs[1..]);
    }
  }

  /** Text with no double quote in it is its own escape. */
  lemma {:induction false} EscapeUnquoted(x: string)
    requires forall i :: 0 <= i < |x| ==> x[i] != '"'
    ensures Escape(x) == x
  {
    if x != [] {
      EscapeUnquoted(x[1..]);
      assert [x[0]] + x[1..] == x;
    }
  }

  /** Names with neither a comma nor a double quote in them. */
  predicate Separable(ns: seq<string>)
  {
    forall i, j :: 0 <= i < |ns| && 0 <= j < |ns[i]| ==> ns[i][j] != ',' && ns[i][j] != '"'
  }

  lemma SeparableAppend(a: seq<string>, b: seq<string>)
    requires Separable(a) && Separable(b)
    ensures Separable(a + b)
  {
    forall i, j | 0 <= i < |a + b| && 0 <= j < |(a + b)[i]|
      ensures (a + b)[i][j] != ',' && (a + b)[i][j] != '"'
    {
      if i >= |a| {
        assert (a + b)[i] == b[i - |a|];
      }
    }
  }

  /** A header of separable names, joined by commas, reads back as those names. */
  lemma NamesReadBack(ns: seq<string>)
    requires |ns| >= 1 && Separable(ns)
    ensures ParseFields(Join(ns)) == Some(ns)
  {
    var cs := seq(|ns|, i requires 0 <= i < |ns| => Bare(ns[i]));
    assert forall i :: 0 <= i < |cs| ==> Plain(cs[i]);
    assert Renders(cs) == ns;
    ReadBack(cs);
    assert Texts(cs) == ns;
  }

  // ---------------------------------------------------------------------------------
  // An insertion-ordered dictionary of string keys
  // ---------------------------------------------------------------------------------

  /** A dictionary: its keys in insertion order, and the value of each. */
  datatype Dict = Dict(keys: seq<string>, vals: map<string, string>)

  /** `{k: '' for k in ks}`. */
  function Blank(ks: seq<string>): (d: Dict)
    ensures d.keys == ks
    ensures forall k :: k in d.vals <==> k in ks
    ensures forall k :: k in d.vals ==> d.vals[k] == ""
  {
    Dict(ks, map k | k in ks :: "")
  }

  /**
   * `d[k] = v`: an existing key keeps its place and takes the new value; a new key goes
   * at the end.
   */
  function Put(d: Dict, k: string, v: string): (r: Dict)
    ensures k in d.vals ==> r.keys == d.keys
    ensures k !in d.vals ==> r.keys == d.keys + [k]
    ensures r.vals == d.vals[k := v]
  {
    Dict(if k in d.vals then d.keys else d.keys + [k], d.vals[k := v])
  }

  /** `d.values()`, in key order. */
  function Values(d: Dict): (vs: seq<string>)
    ensures |vs| == |d.keys|
    ensures forall i :: 0 <= i < |d.keys| && d.keys[i] in d.vals ==> vs[i] == d.vals[d.keys[i]]
  {
    seq(|d.keys|, i requires 0 <= i < |d.keys| => if d.keys[i] in d.vals then d.vals[d.keys[i]] else "")
  }
}
