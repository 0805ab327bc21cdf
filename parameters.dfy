/**
 * Build-trigger parameters: `name`/`value` pairs whose value may name a
 * local file (`@path`) to take the value from, collected in an ordered
 * list that is sent to the server as JSON.
 */
module Parameters {
  import opened Wrappers
  import opened Text
  import Json

  /** One `{name, value}` pair. */
  datatype Parameter = Parameter(name: string, value: string) {

    /**
     * `eval_file_content`: a value `@path` is replaced by the contents of
     * `path`, or by the empty string when it cannot be read. Exactly one `@`
     * is stripped and the contents are taken as they are, never expanded
     * again; any other value is kept.
     */
    function EvalFileContent(read: string -> Option<string>): (p: Parameter)
      ensures p.name == name
      ensures StartsWith(value, "@") ==> p.value == read(value[1..]).GetOr("")
      ensures !StartsWith(value, "@") ==> p == this
    {
      if |value| > 0 && value[0] == '@' then this.(value := read(value[1..]).GetOr("")) else this
    }
  }

  /** `Parameter::new`: the pair, with the file expansion applied once. */
  function NewParameter(key: string, value: string, read: string -> Option<string>): (p: Parameter)
    ensures p.name == key
    ensures !StartsWith(value, "@") ==> p.value == value
    ensures StartsWith(value, "@") ==> p.value == read(value[1..]).GetOr("")
  {
    Parameter(key, value).EvalFileContent(read)
  }

  /** The value of a file parameter is the file's text even when that text itself starts with `@`. */
  lemma ContentsNotExpandedAgain(key: string, path: string, contents: string, read: string -> Option<string>)
    requires read(path) == Some(contents)
    ensures NewParameter(key, "@" + path, read).value == contents
  {
    assert ("@" + path)[1..] == path;
  }

  /** The parameters `add_list` appends for `keys`, in the same order. */
  function NewParameters(keys: seq<(string, string)>, read: string -> Option<string>): (ps: seq<Parameter>)
    ensures |ps| == |keys|
    ensures forall i :: 0 <= i < |keys| ==> ps[i] == NewParameter(keys[i].0, keys[i].1, read)
  {
    seq(|keys|, i requires 0 <= i < |keys| => NewParameter(keys[i].0, keys[i].1, read))
  }

  /** The decoded parameters of `from_string`, each with the file expansion applied, in order. */
  function Expanded(decoded: seq<Parameter>, read: string -> Option<string>): (ps: seq<Parameter>)
    ensures |ps| == |decoded|
    ensures forall i :: 0 <= i < |decoded| ==> ps[i] == decoded[i].EvalFileContent(read)
  {
    seq(|decoded|, i requires 0 <= i < |decoded| => decoded[i].EvalFileContent(read))
  }

  // ----- The serialized form: {"parameter":[{"name":…,"value":…},…]} -----

  const ListHead := "{\"parameter\":["
  const NameHead := "{\"name\":\""
  const ValueSep := ",\"value\":\""

  /** serde's rendering of one `Parameter`: its two fields in declaration order, read back as that parameter. */
  function ParameterJson(p: Parameter): (s: string)
    ensures ReadParameter(s) == Some((p, ""))
  {
    var a := Json.Escape(p.name) + "\"" + (ValueSep + (Json.Escape(p.value) + "\"" + "}"));
    assert "}" + "" == "}";
    ExpectPrefix(NameHead, a);
    ReadNameJson(p, "");
    NameHead + a
  }

  /** The elements after the first, each preceded by a comma. */
  function MoreJson(ps: seq<Parameter>): string {
    if ps == [] then "" else "," + ParameterJson(ps[0]) + MoreJson(ps[1..])
  }

  function ItemsJson(ps: seq<Parameter>): string {
    if ps == [] then "" else ParameterJson(ps[0]) + MoreJson(ps[1..])
  }

  /**
   * `serde_json::to_string(&list)`: the field is renamed `parameter`; no
   * whitespace. The text decodes to exactly the list, in order.
   */
  function ListJson(ps: seq<Parameter>): (s: string)
    ensures ReadList(s) == Some(ps)
  {
    var t := ItemsJson(ps) + "]" + "}";
    ExpectPrefix(ListHead, t);
    ReadItemsJson(ps, "}");
    ListHead + t
  }

  // ----- Reading the serialized form back -----

  function Expect(lit: string, s: string): (r: Option<string>)
    ensures r.Some? ==> |r.value| == |s| - |lit|
  {
    if StartsWith(s, lit) then Some(s[|lit|..]) else None
  }

  lemma ExpectPrefix(lit: string, t: string)
    ensures Expect(lit, lit + t) == Some(t)
  {
    assert (lit + t)[..|lit|] == lit;
  }

  function ReadParameter(s: string): (r: Option<(Parameter, string)>)
    ensures r.Some? ==> |r.value.1| < |s|
  {
    match Expect(NameHead, s)
    case None => None
    case Some(a) => ReadName(a)
  }

  function ReadName(a: string): (r: Option<(Parameter, string)>)
    ensures r.Some? ==> |r.value.1| < |a|
  {
    match Json.ReadString(a)
    case None => None
    case Some((n, b)) =>
      match Expect(ValueSep, b)
      case None => None
      case Some(c) => ReadValue(n, c)
  }

  function ReadValue(n: string, c: string): (r: Option<(Parameter, string)>)
    ensures r.Some? ==> |r.value.1| < |c|
  {
    match Json.ReadString(c)
    case None => None
    case Some((v, d)) =>
      match Expect("}", d)
      case None => None
      case Some(e) => Some((Parameter(n, v), e))
  }

  function ReadMore(s: string): (r: Option<(seq<Parameter>, string)>)
    decreases |s|
  {
    if StartsWith(s, "]") then Some(([], s[1..]))
    else if StartsWith(s, ",") then
      match ReadParameter(s[1..])
      case None => None
      case Some((p, r)) =>
        match ReadMore(r)
        case None => None
        case Some((ps, t)) => Some(([p] + ps, t))
    else None
  }

  function ReadItems(t: string): Option<(seq<Parameter>, string)> {
    if StartsWith(t, "]") then Some(([], t[1..]))
    else
      match ReadParameter(t)
      case None => None
      case Some((p, r)) =>
        match ReadMore(r)
        case None => None
        case Some((ps, u)) => Some(([p] + ps, u))
  }

  /** The list a serialized text denotes, if it has exactly the serialized shape. */
  function ReadList(s: string): Option<seq<Parameter>> {
    match Expect(ListHead, s)
    case None => None
    case Some(t) =>
      match ReadItems(t)
      case None => None
      case Some((ps, u)) => if u == "}" then Some(ps) else None
  }

  lemma ReadValueJson(n: string, v: string, rest: string)
    ensures ReadValue(n, Json.Escape(v) + "\"" + ("}" + rest)) == Some((Parameter(n, v), rest))
  {
    Json.ReadEscape(v, "}" + rest);
    ExpectPrefix("}", rest);
  }

  lemma ReadNameJson(p: Parameter, rest: string)
    ensures ReadName(Json.Escape(p.name) + "\"" + (ValueSep + (Json.Escape(p.value) + "\"" + ("}" + rest)))) == Some((p, rest))
  {
    var c := Json.Escape(p.value) + "\"" + ("}" + rest);
    Json.ReadEscape(p.name, ValueSep + c);
    ExpectPrefix(ValueSep, c);
    ReadValueJson(p.name, p.value, rest);
  }

  lemma ReadParameterJson(p: Parameter, rest: string)
    ensures ReadParameter(ParameterJson(p) + rest) == Some((p, rest))
  {
    var en, ev := Json.Escape(p.name), Json.Escape(p.value);
    var a := en + "\"" + (ValueSep + (ev + "\"" + ("}" + rest)));
    var o := en + "\"" + (ValueSep + (ev + "\"" + "}"));
    assert o + rest == a;
    assert ParameterJson(p) + rest == NameHead + a;
    ExpectPrefix(NameHead, a);
    ReadNameJson(p, rest);
  }

  /** One more element in front: its comma, its object, then what follows is read as before. */
  lemma ReadMoreStep(p: Parameter, ps: seq<Parameter>, rest: string)
    requires ReadMore(MoreJson(ps) + "]" + rest) == Some((ps, rest))
    ensures ReadMore("," + ParameterJson(p) + MoreJson(ps) + "]" + rest) == Some(([p] + ps, rest))
  {
    var pj, m := ParameterJson(p), MoreJson(ps);
    var s := "," + pj + m + "]" + rest;
    var tail := m + "]" + rest;
    ConcatAssoc("," + pj, m, "]");
    ConcatAssoc("," + pj, m + "]", rest);
    ConcatAssoc(",", pj, tail);
    assert s == "," + (pj + tail);
    assert s[0] == ',';
    assert s[1..] == pj + tail;
    ReadParameterJson(p, tail);
  }

  lemma {:induction false} ReadMoreJson(ps: seq<Parameter>, rest: string)
    ensures ReadMore(MoreJson(ps) + "]" + rest) == Some((ps, rest))
  {
    if ps == [] {
      var s := MoreJson(ps) + "]" + rest;
      assert s == "]" + rest;
      assert StartsWith(s, "]") && s[1..] == rest;
    } else {
      ReadMoreJson(ps[1..], rest);
      ReadMoreStep(ps[0], ps[1..], rest);
      assert MoreJson(ps) == "," + ParameterJson(ps[0]) + MoreJson(ps[1..]);
      assert [ps[0]] + ps[1..] == ps;
    }
  }

  /** A list that does not start with `]` is one parameter followed by the rest. */
  lemma ReadItemsStep(s: string, p: Parameter, r: string, ps: seq<Parameter>, rest: string)
    requires s != [] && s[0] != ']'
    requires ReadParameter(s) == Some((p, r)) && ReadMore(r) == Some((ps, rest))
    ensures ReadItems(s) == Some(([p] + ps, rest))
  {
    assert !StartsWith(s, "]") by {
      assert s[..1] == [s[0]];
    }
  }

  lemma ReadItemsJson(ps: seq<Parameter>, rest: string)
    ensures ReadItems(ItemsJson(ps) + "]" + rest) == Some((ps, rest))
  {
    var s := ItemsJson(ps) + "]" + rest;
    if ps == [] {
      assert s == "]" + rest;
      assert StartsWith(s, "]") && s[1..] == rest;
    } else {
      var pj, m := ParameterJson(ps[0]), MoreJson(ps[1..]);
      var tail := m + "]" + rest;
      assert ItemsJson(ps) == pj + m;
      ConcatAssoc(pj, m, "]");
      ConcatAssoc(pj, m + "]", rest);
      assert s == pj + tail;
      assert s[0] == pj[0] == '{';
      ReadParameterJson(ps[0], tail);
      ReadMoreJson(ps[1..], rest);
      ReadItemsStep(s, ps[0], tail, ps[1..], rest);
      assert [ps[0]] + ps[1..] == ps;
    }
  }

  /** `[K=V]` is sent as `{"parameter":[{"name":"K","value":"V"}]}` when neither needs escaping. */
  lemma SingleParameterJson(k: string, v: string)
    requires forall i :: 0 <= i < |k| ==> Json.EscapeChar(k[i]) == [k[i]]
    requires forall i :: 0 <= i < |v| ==> Json.EscapeChar(v[i]) == [v[i]]
    ensures ListJson([Parameter(k, v)]) == "{\"parameter\":[{\"name\":\"" + k + "\",\"value\":\"" + v + "\"}]}"
  {
    EscapePlain(k);
    EscapePlain(v);
    var p := Parameter(k, v);
    assert ItemsJson([p]) == ParameterJson(p);
    Assemble(k, v);
  }

  lemma Assemble(k: string, v: string)
    ensures ListHead + (NameHead + (k + "\"" + (ValueSep + (v + "\"" + "}"))) + "]" + "}")
         == "{\"parameter\":[{\"name\":\"" + k + "\",\"value\":\"" + v + "\"}]}"
  {
  }

  lemma {:induction false} EscapePlain(s: string)
    requires forall i :: 0 <= i < |s| ==> Json.EscapeChar(s[i]) == [s[i]]
    ensures Json.Escape(s) == s
  {
    if s != [] {
      EscapePlain(s[1..]);
      assert [s[0]] + s[1..] == s;
    }
  }

  /** `ParameterList`: the ordered parameters of one trigger. */
  class ParameterList {
    var parameters: seq<Parameter>

    /** `ParameterList::new`: no parameters. */
    constructor ()
      ensures parameters == []
    {
      parameters := [];
    }

    /**
     * `ParameterList::from_string`: the decoded array, or no parameters when
     * the text is not one; each decoded parameter then gets the file
     * expansion, in place and in order.
     */
    constructor FromString(s: string, decode: string -> Option<seq<Parameter>>, read: string -> Option<string>)
      ensures decode(s).None? ==> parameters == []
      ensures parameters == Expanded(decode(s).GetOr([]), read)
    {
      var decoded := decode(s).GetOr([]);
      var ps := decoded;
      var i := 0;
      while i < |ps|
        invariant 0 <= i <= |ps| == |decoded|
        invariant forall j :: 0 <= j < i ==> ps[j] == decoded[j].EvalFileContent(read)
        invariant ps[i..] == decoded[i..]
      {
        ps := ps[i := ps[i].EvalFileContent(read)];
        i := i + 1;
      }
      parameters := ps;
    }

    /** `add`: one parameter at the end; the others stay as they were. */
    method Add(key: string, value: string, read: string -> Option<string>)
      modifies this
      ensures parameters == old(parameters) + [NewParameter(key, value, read)]
    {
      parameters := parameters + [NewParameter(key, value, read)];
    }

    /** `add_list`: one parameter per pair, appended in the pairs' order. */
    method AddList(keys: seq<(string, string)>, read: string -> Option<string>)
      modifies this
      ensures parameters == old(parameters) + NewParameters(keys, read)
    {
      var i := 0;
      while i < |keys|
        invariant 0 <= i <= |keys|
        invariant parameters == old(parameters) + NewParameters(keys[..i], read)
      {
        assert NewParameters(keys[..i + 1], read) == NewParameters(keys[..i], read) + [NewParameter(keys[i].0, keys[i].1, read)];
        parameters := parameters + [NewParameter(keys[i].0, keys[i].1, read)];
        i := i + 1;
      }
      assert keys[..i] == keys;
    }

    /** `serde_json::to_string(self)`: a text that decodes to exactly these parameters, in order. */
    function ToJson(): (s: string)
      reads this
      ensures ReadList(s) == Some(parameters)
    {
      ListJson(parameters)
    }
  }
}
