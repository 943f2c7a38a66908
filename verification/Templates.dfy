/** Document rendering: placeholders replaced one key after another, against the
    substitution of all of them at once. */
module Templates {

  import opened Strings

  // ------------------------------------------------------------- text replacement

  /** `s.replace(pattern, value)`: leftmost, without overlaps, never looking at what was
      put in. */
  function Replace(s: string, pattern: string, value: string): string
    requires pattern != ""
    decreases |s|
  {
    if pattern <= s then value + Replace(s[|pattern|..], pattern, value)
    else if s == "" then ""
    else [s[0]] + Replace(s[1..], pattern, value)
  }

  function Placeholder(key: string): string {
    "{{" + key + "}}"
  }

  /** A variable's value; a float is given with the text Python prints it as. */
  datatype Scalar = Str(text: string) | Int(value: int) | Bool(truth: bool) | Float(printed: string)

  /** `str(value)`. */
  function Shown(v: Scalar): string {
    match v
    case Str(s) => s
    case Int(n) => if n < 0 then "-" + Decimal(-n) else Decimal(n)
    case Bool(b) => if b then "True" else "False"
    case Float(s) => s
  }

  type Variables = seq<(string, Scalar)>

  /** The loop of `_render_template`: each key in turn, over the text so far. */
  function Sequential(text: string, variables: Variables): string {
    if variables == [] then text
    else
      var n := |variables| - 1;
      Replace(Sequential(text, variables[..n]), Placeholder(variables[n].0), Shown(variables[n].1))
  }

  /** Non-overlapping matches of the pattern `{{([^}]+)}}`, the placeholders the renderer
      warns about. */
  function Unreplaced(s: string): seq<string>
    decreases |s|
  {
    if s == "" then []
    else if "{{" <= s then
      var key := UpToBrace(s[2..]);
      if key != "" && "}}" <= s[2 + |key|..] then [key] + Unreplaced(s[4 + |key|..])
      else Unreplaced(s[1..])
    else Unreplaced(s[1..])
  }

  function UpToBrace(s: string): (r: string)
    ensures r <= s
  {
    if s == "" || s[0] == '}' then "" else [s[0]] + UpToBrace(s[1..])
  }

  method RenderTemplate(template: string, variables: Variables) returns (rendered: string, unreplaced: seq<string>)
    ensures rendered == Sequential(template, variables)
    ensures unreplaced == Unreplaced(rendered)
  {
    rendered := template;
    for i := 0 to |variables|
      invariant rendered == Sequential(template, variables[..i])
    {
      rendered := Replace(rendered, Placeholder(variables[i].0), Shown(variables[i].1));
      assert variables[..i + 1][..i] == variables[..i];
    }
    assert variables[..|variables|] == variables;
    unreplaced := Unreplaced(rendered);
  }

  // ------------------------------------------------------- templates and substitution

  datatype Token = Text(text: string) | Hole(key: string)

  function Print(t: Token): string {
    match t
    case Text(s) => s
    case Hole(k) => Placeholder(k)
  }

  function Flat(tokens: seq<Token>): string {
    if tokens == [] then "" else Print(tokens[0]) + Flat(tokens[1..])
  }

  /** Each hole whose key is given becomes its value; the others stay. */
  function Filled(t: Token, values: map<string, string>): Token {
    if t.Hole? && t.key in values then Text(values[t.key]) else t
  }

  function Simultaneous(tokens: seq<Token>, values: map<string, string>): seq<Token> {
    if tokens == [] then [] else [Filled(tokens[0], values)] + Simultaneous(tokens[1..], values)
  }

  predicate Plain(s: string) {
    '{' !in s && '}' !in s
  }

  predicate PlainToken(t: Token) {
    Plain(if t.Text? then t.text else t.key)
  }

  predicate PlainTemplate(tokens: seq<Token>) {
    forall t | t in tokens :: PlainToken(t)
  }

  predicate PlainVariables(variables: Variables) {
    forall v | v in variables :: Plain(v.0) && Plain(Shown(v.1))
  }

  /** Numbers and booleans are always printed without braces. */
  lemma ScalarsArePlain(v: Scalar)
    requires v.Int? || v.Bool?
    ensures Plain(Shown(v))
  {
    if v.Int? {
      var digits := Decimal(if v.value < 0 then -v.value else v.value);
      assert forall i | 0 <= i < |digits| :: digits[i] in digits;
    }
  }

  /** A dictionary's items: no key twice. */
  predicate DistinctKeys(variables: Variables) {
    forall i, j | 0 <= i < j < |variables| :: variables[i].0 != variables[j].0
  }

  function Values(variables: Variables): map<string, string> {
    if variables == [] then map[]
    else
      var n := |variables| - 1;
      Values(variables[..n])[variables[n].0 := Shown(variables[n].1)]
  }

  // --------------------------------------------------------- one key, over the text

  /** Text in which no two opening braces meet is copied unchanged. */
  lemma {:induction false} ReplaceSkips(t: string, rest: string, key: string, value: string)
    requires forall i | 0 <= i < |t| :: t[i] == '{' ==> i + 1 < |t| && t[i + 1] != '{'
    ensures Replace(t + rest, Placeholder(key), value) == t + Replace(rest, Placeholder(key), value)
  {
    if t == "" {
      assert t + rest == rest;
    } else {
      var s := t + rest;
      assert Placeholder(key)[0] == '{' && Placeholder(key)[1] == '{';
      assert s[0] == t[0] && (|t| > 1 ==> s[1] == t[1]);
      assert s[1..] == t[1..] + rest;
      ReplaceSkips(t[1..], rest, key, value);
    }
  }

  lemma ReplaceHits(rest: string, key: string, value: string)
    ensures Replace(Placeholder(key) + rest, Placeholder(key), value)
            == value + Replace(rest, Placeholder(key), value)
  {
    assert (Placeholder(key) + rest)[|Placeholder(key)|..] == rest;
  }

  /** One placeholder is not found at the start of another. */
  lemma PlaceholdersDiffer(a: string, b: string, rest: string)
    requires Plain(a) && Plain(b) && a != b
    ensures !(Placeholder(a) <= Placeholder(b) + rest)
  {
    var p, s := Placeholder(a), Placeholder(b) + rest;
    assert forall i | 0 <= i < |a| :: p[i + 2] == a[i] && a[i] in a;
    assert forall i | 0 <= i < |b| :: s[i + 2] == b[i] && b[i] in b;
    assert p[|a| + 2] == '}' && s[|b| + 2] == '}';
    if |a| < |b| {
      assert p[|a| + 2] != s[|a| + 2];
    } else if |b| < |a| {
      assert p[|b| + 2] != s[|b| + 2];
    } else {
      var i :| 0 <= i < |a| && a[i] != b[i];
      assert p[i + 2] != s[i + 2];
    }
  }

  lemma ReplaceMisses(other: string, rest: string, key: string, value: string)
    requires Plain(other) && Plain(key) && other != key
    ensures Replace(Placeholder(other) + rest, Placeholder(key), value)
            == Placeholder(other) + Replace(rest, Placeholder(key), value)
  {
    PlaceholdersDiffer(key, other, rest);
    var tail := "{" + other + "}}";
    TailOfPlaceholder(other, rest);
    hide Placeholder;
    ReplaceSkips(tail, rest, key, value);
  }

  lemma TailOfPlaceholder(key: string, rest: string)
    requires Plain(key)
    ensures var tail := "{" + key + "}}";
            && Placeholder(key) == ['{'] + tail
            && (Placeholder(key) + rest) == ['{'] + (tail + rest)
            && (Placeholder(key) + rest)[1..] == tail + rest
            && forall i | 0 <= i < |tail| :: tail[i] == '{' ==> i + 1 < |tail| && tail[i + 1] != '{'
  {
    var tail := "{" + key + "}}";
    assert forall i | 0 <= i < |key| :: tail[i + 1] == key[i] && key[i] in key;
  }

  lemma {:induction false} ReplaceFillsHoles(tokens: seq<Token>, key: string, value: string)
    requires PlainTemplate(tokens) && Plain(key)
    ensures Replace(Flat(tokens), Placeholder(key), value) == Flat(Simultaneous(tokens, map[key := value]))
  {
    if tokens != [] {
      var rest := Flat(tokens[1..]);
      ReplaceFillsHoles(tokens[1..], key, value);
      assert PlainToken(tokens[0]);
      match tokens[0] {
        case Text(s) =>
          assert forall i | 0 <= i < |s| :: s[i] in s;
          ReplaceSkips(s, rest, key, value);
        case Hole(k) =>
          if k == key { ReplaceHits(rest, key, value); }
          else { ReplaceMisses(k, rest, key, value); }
      }
    }
  }

  lemma {:induction false} FilledStaysPlain(tokens: seq<Token>, values: map<string, string>)
    requires PlainTemplate(tokens) && forall k | k in values :: Plain(values[k])
    ensures PlainTemplate(Simultaneous(tokens, values))
  {
    if tokens != [] {
      FilledStaysPlain(tokens[1..], values);
      assert PlainToken(tokens[0]);
    }
  }

  lemma {:induction false} FillAgain(tokens: seq<Token>, values: map<string, string>, key: string, value: string)
    requires key !in values
    ensures Simultaneous(Simultaneous(tokens, values), map[key := value])
            == Simultaneous(tokens, values[key := value])
  {
    if tokens != [] {
      FillAgain(tokens[1..], values, key, value);
    }
  }

  lemma {:induction false} ValuesOf(variables: Variables)
    requires DistinctKeys(variables)
    ensures forall v | v in variables :: v.0 in Values(variables) && Values(variables)[v.0] == Shown(v.1)
    ensures forall k | k in Values(variables) :: exists v :: v in variables && v.0 == k && Shown(v.1) == Values(variables)[k]
  {
    if variables != [] {
      var n := |variables| - 1;
      ValuesOf(variables[..n]);
      assert variables == variables[..n] + [variables[n]];
      forall v | v in variables ensures v.0 in Values(variables) && Values(variables)[v.0] == Shown(v.1) {
        var i :| 0 <= i <= n && variables[i] == v;
        if i < n { assert v in variables[..n]; }
      }
    }
  }

  /** Replacing the keys one after another is substituting them all at once: values are
      never rescanned, and the order of the dictionary does not matter. */
  lemma {:induction false} SequentialIsSimultaneous(tokens: seq<Token>, variables: Variables)
    requires PlainTemplate(tokens) && PlainVariables(variables) && DistinctKeys(variables)
    ensures Sequential(Flat(tokens), variables) == Flat(Simultaneous(tokens, Values(variables)))
  {
    if variables == [] {
      FillNothing(tokens);
    } else {
      var n := |variables| - 1;
      var before := variables[..n];
      var key, value := variables[n].0, Shown(variables[n].1);
      SequentialIsSimultaneous(tokens, before);
      ValuesOf(before);
      assert key !in Values(before);
      assert forall k | k in Values(before) :: Plain(Values(before)[k]);
      var filled := Simultaneous(tokens, Values(before));
      FilledStaysPlain(tokens, Values(before));
      assert variables[n] in variables;
      ReplaceFillsHoles(filled, key, value);
      FillAgain(tokens, Values(before), key, value);
    }
  }

  lemma {:induction false} FillNothing(tokens: seq<Token>)
    ensures Simultaneous(tokens, map[]) == tokens
  {
    if tokens != [] { FillNothing(tokens[1..]); }
  }

  lemma ValuesWithin(a: Variables, b: Variables, k: string)
    requires DistinctKeys(a) && DistinctKeys(b) && (forall v | v in a :: v in b)
    requires k in Values(a)
    ensures k in Values(b) && Values(b)[k] == Values(a)[k]
  {
    hide Values, Shown, DistinctKeys;
    ValuesOf(a);
    ValuesOf(b);
    var v :| v in a && v.0 == k && Shown(v.1) == Values(a)[k];
    assert v in b;
  }

  /** Two dictionaries with the same items render the same document. */
  lemma OrderDoesNotMatter(tokens: seq<Token>, a: Variables, b: Variables)
    requires PlainTemplate(tokens)
    requires PlainVariables(a) && DistinctKeys(a) && PlainVariables(b) && DistinctKeys(b)
    requires forall v :: v in a <==> v in b
    ensures Sequential(Flat(tokens), a) == Sequential(Flat(tokens), b)
  {
    hide Values, Shown, Sequential, Flat, PlainTemplate, PlainVariables, DistinctKeys;
    SequentialIsSimultaneous(tokens, a);
    SequentialIsSimultaneous(tokens, b);
    forall k | k in Values(a) ensures k in Values(b) && Values(b)[k] == Values(a)[k] { ValuesWithin(a, b, k); }
    forall k | k in Values(b) ensures k in Values(a) { ValuesWithin(b, a, k); }
    assert Values(a) == Values(b);
  }

  predicate StartsAt(s: string, i: int, pattern: string) {
    0 <= i <= |s| && pattern <= s[i..]
  }

  predicate Contains(s: string, pattern: string) {
    exists i | 0 <= i <= |s| :: StartsAt(s, i, pattern)
  }

  lemma ContainsTail(s: string, pattern: string)
    requires s != "" && !(pattern <= s)
    ensures Contains(s, pattern) <==> Contains(s[1..], pattern)
  {
    assert s[0..] == s;
    assert forall i | 0 < i <= |s| :: s[i..] == s[1..][i - 1..];
    if Contains(s, pattern) {
      var i :| 0 <= i <= |s| && StartsAt(s, i, pattern);
      assert StartsAt(s[1..], i - 1, pattern);
    }
    if Contains(s[1..], pattern) {
      var i :| 0 <= i <= |s[1..]| && StartsAt(s[1..], i, pattern);
      assert StartsAt(s, i + 1, pattern);
    }
  }

  /** What is replaced by itself stays; longer or shorter values change the length wherever
      the pattern occurs. */
  lemma {:induction false} ReplacedLength(s: string, pattern: string, value: string)
    requires pattern != ""
    ensures |value| >= |pattern| ==> |Replace(s, pattern, value)| >= |s|
    ensures |value| <= |pattern| ==> |Replace(s, pattern, value)| <= |s|
    ensures Contains(s, pattern) && |value| != |pattern| ==> |Replace(s, pattern, value)| != |s|
    ensures !Contains(s, pattern) || value == pattern ==> Replace(s, pattern, value) == s
    decreases |s|
  {
    if pattern <= s {
      assert s[0..] == s && StartsAt(s, 0, pattern);
      ReplacedLength(s[|pattern|..], pattern, value);
      assert s == pattern + s[|pattern|..];
    } else if s != "" {
      ContainsTail(s, pattern);
      ReplacedLength(s[1..], pattern, value);
    }
  }

  /** Replacing changes a text exactly if the pattern occurs in it and the value is another
      text. */
  lemma {:induction false} ReplaceChangesIff(s: string, pattern: string, value: string)
    requires pattern != ""
    ensures Replace(s, pattern, value) == s <==> !Contains(s, pattern) || value == pattern
    decreases |s|
  {
    ReplacedLength(s, pattern, value);
    if |value| == |pattern| {
      if pattern <= s {
        assert s[0..] == s && StartsAt(s, 0, pattern);
        assert Replace(s, pattern, value)[..|pattern|] == value;
      } else if s != "" {
        ContainsTail(s, pattern);
        ReplaceChangesIff(s[1..], pattern, value);
        assert Replace(s, pattern, value)[1..] == Replace(s[1..], pattern, value);
      }
    }
  }

  lemma TwoInTurn(text: string, v: (string, Scalar), w: (string, Scalar))
    ensures Sequential(text, [v, w]) == Replace(Replace(text, Placeholder(v.0), Shown(v.1)), Placeholder(w.0), Shown(w.1))
  {
    assert [v, w][..1] == [v];
    One(text, v);
  }

  /** A value is rescanned by the later keys: the two orders of two variables agree on the
      placeholder of one of them exactly if its value holds no placeholder of the other, or
      the other stands for its own placeholder. */
  lemma OrderShowsIff(a: string, b: string, v: Scalar, w: Scalar)
    requires Plain(a) && Plain(b) && a != b
    ensures Sequential(Placeholder(a), [(a, v), (b, w)]) == Sequential(Placeholder(a), [(b, w), (a, v)])
            <==> !Contains(Shown(v), Placeholder(b)) || Shown(w) == Placeholder(b)
  {
    var t := Placeholder(a);
    InTurn(a, b, v, w);
    ReplaceChangesIff(Shown(v), Placeholder(b), Shown(w));
  }

  lemma InTurn(a: string, b: string, v: Scalar, w: Scalar)
    requires Plain(a) && Plain(b) && a != b
    ensures Sequential(Placeholder(a), [(a, v), (b, w)]) == Replace(Shown(v), Placeholder(b), Shown(w))
    ensures Sequential(Placeholder(a), [(b, w), (a, v)]) == Shown(v)
  {
    var t := Placeholder(a);
    TwoInTurn(t, (a, v), (b, w));
    TwoInTurn(t, (b, w), (a, v));
    Alone(a, Shown(v));
    ReplaceMisses(a, "", b, Shown(w));
    assert t + "" == t;
  }

  /** So the order of a dictionary can show. */
  lemma BracesMakeOrderMatter()
    ensures var t := Placeholder("a");
            var first, second := ("a", Str(Placeholder("b"))), ("b", Str("x"));
            Sequential(t, [first, second]) == "x" && Sequential(t, [second, first]) == Placeholder("b")
  {
    InTurn("a", "b", Str(Placeholder("b")), Str("x"));
    Alone("b", "x");
  }

  lemma One(text: string, v: (string, Scalar))
    ensures Sequential(text, [v]) == Replace(text, Placeholder(v.0), Shown(v.1))
  {
    assert [v][..0] == [];
  }

  lemma Alone(key: string, value: string)
    ensures Replace(Placeholder(key), Placeholder(key), value) == value
  {
    assert Placeholder(key) == Placeholder(key) + "";
    ReplaceHits("", key, value);
  }

  // ------------------------------------------------------------ what is left unfilled

  function Missing(tokens: seq<Token>, values: map<string, string>): seq<string> {
    if tokens == [] then []
    else
      var t := tokens[0];
      (if t.Hole? && t.key !in values && t.key != "" then [t.key] else [])
      + Missing(tokens[1..], values)
  }

  lemma {:induction false} ScanSkips(t: string, rest: string)
    requires forall i | 0 <= i < |t| :: t[i] == '{' ==> i + 1 < |t| && t[i + 1] != '{'
    ensures Unreplaced(t + rest) == Unreplaced(rest)
  {
    if t == "" {
      assert t + rest == rest;
    } else {
      assert (t + rest)[0] == t[0] && (|t| > 1 ==> (t + rest)[1] == t[1]);
      assert (t + rest)[1..] == t[1..] + rest;
      ScanSkips(t[1..], rest);
    }
  }

  lemma {:induction false} KeyUpToBrace(key: string, rest: string)
    requires Plain(key)
    ensures UpToBrace(key + "}}" + rest) == key
  {
    var s := key + "}}" + rest;
    if key != "" {
      assert s[0] == key[0] && key[0] in key;
      assert s[1..] == key[1..] + "}}" + rest;
      KeyUpToBrace(key[1..], rest);
    }
  }

  lemma ScanFinds(key: string, rest: string)
    requires Plain(key)
    ensures Unreplaced(Placeholder(key) + rest) == (if key != "" then [key] else []) + Unreplaced(rest)
  {
    var s := Placeholder(key) + rest;
    assert s[2..] == key + "}}" + rest;
    KeyUpToBrace(key, rest);
    if key != "" {
      assert s[2 + |key|..] == "}}" + rest && s[4 + |key|..] == rest;
    } else {
      assert s[1..] == "{}}" + rest;
      ScanSkips("{}}", rest);
    }
  }

  lemma {:induction false} ScanOfFilled(tokens: seq<Token>, values: map<string, string>)
    requires PlainTemplate(tokens) && forall k | k in values :: Plain(values[k])
    ensures Unreplaced(Flat(Simultaneous(tokens, values))) == Missing(tokens, values)
  {
    if tokens != [] {
      ScanOfFilled(tokens[1..], values);
      assert PlainToken(tokens[0]);
      var rest := Flat(Simultaneous(tokens[1..], values));
      match Filled(tokens[0], values) {
        case Text(s) =>
          assert forall i | 0 <= i < |s| :: s[i] in s;
          ScanSkips(s, rest);
        case Hole(k) => ScanFinds(k, rest);
      }
    }
  }

  /** The placeholders the renderer reports as unreplaced are exactly the template's holes
      whose key was not given, in order. */
  lemma SurvivesIffMissing(tokens: seq<Token>, variables: Variables)
    requires PlainTemplate(tokens) && PlainVariables(variables) && DistinctKeys(variables)
    ensures Unreplaced(Sequential(Flat(tokens), variables)) == Missing(tokens, Values(variables))
  {
    SequentialIsSimultaneous(tokens, variables);
    ValuesOf(variables);
    ScanOfFilled(tokens, Values(variables));
  }

  // -------------------------------------------------------------- the runtime case id

  const CASE_ID := "case_id"

  /** `{**variables, "case_id": case_id}`: an existing key keeps its place. */
  function WithCaseId(variables: Variables, caseId: string): Variables {
    if variables == [] then [(CASE_ID, Str(caseId))]
    else if variables[0].0 == CASE_ID then [(CASE_ID, Str(caseId))] + variables[1..]
    else [variables[0]] + WithCaseId(variables[1..], caseId)
  }

  lemma {:induction false} MergedItems(variables: Variables, caseId: string, v: (string, Scalar))
    requires DistinctKeys(variables)
    ensures v in WithCaseId(variables, caseId) <==> v == (CASE_ID, Str(caseId)) || (v in variables && v.0 != CASE_ID)
  {
    if variables != [] {
      var head, tail := variables[0], variables[1..];
      assert variables == [head] + tail;
      assert forall i | 0 <= i < |tail| :: tail[i] == variables[i + 1] && tail[i].0 != head.0;
      if head.0 == CASE_ID {
        assert forall x | x in tail :: x.0 != CASE_ID;
      } else {
        MergedItems(tail, caseId, v);
      }
    }
  }

  lemma {:induction false} MergedDistinct(variables: Variables, caseId: string)
    requires DistinctKeys(variables)
    ensures DistinctKeys(WithCaseId(variables, caseId))
  {
    if variables != [] {
      var head, tail := variables[0], variables[1..];
      assert forall i | 0 <= i < |tail| :: tail[i] == variables[i + 1] && tail[i].0 != head.0;
      if head.0 != CASE_ID {
        var merged := WithCaseId(tail, caseId);
        MergedDistinct(tail, caseId);
        forall i | 0 <= i < |merged| ensures merged[i].0 != head.0 {
          MergedItems(tail, caseId, merged[i]);
          assert merged[i] in merged;
        }
      }
    }
  }

  /** The runtime case id wins over a fixture value, and no other key is touched. */
  lemma CaseIdWins(variables: Variables, caseId: string)
    requires DistinctKeys(variables)
    ensures var merged := WithCaseId(variables, caseId);
            && DistinctKeys(merged)
            && (forall v :: v in merged <==> v == (CASE_ID, Str(caseId)) || (v in variables && v.0 != CASE_ID))
  {
    hide WithCaseId, DistinctKeys;
    MergedDistinct(variables, caseId);
    forall v ensures v in WithCaseId(variables, caseId)
                     <==> v == (CASE_ID, Str(caseId)) || (v in variables && v.0 != CASE_ID)
    {
      MergedItems(variables, caseId, v);
    }
  }
}
