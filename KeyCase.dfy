/** jsonToMessageProperties: Twirp's JSON names fields in snake_case, the
    application expects camelCase, so every object key of a parsed response is
    rewritten, at every depth, while every value stays as it is. */
module KeyCase {
  import opened Wrappers
  import opened Json
  import opened Http

  predicate IsLower(c: char) { 'a' <= c <= 'z' }

  predicate IsUpper(c: char) { 'A' <= c <= 'Z' }

  function ToUpper(c: char): (u: char)
    requires IsLower(c)
    ensures IsUpper(u)
  {
    (c as int - 32) as char
  }

  function ToLower(c: char): (l: char)
    requires IsUpper(c)
    ensures IsLower(l)
  {
    (c as int + 32) as char
  }

  /** snake_case to camelCase: an underscore followed by a lower-case letter
      becomes that letter in upper case; every other character is kept. */
  function SnakeToCamel(s: string): (r: string)
    ensures |r| <= |s|
  {
    if |s| == 0 then ""
    else if |s| >= 2 && s[0] == '_' && IsLower(s[1]) then [ToUpper(s[1])] + SnakeToCamel(s[2..])
    else [s[0]] + SnakeToCamel(s[1..])
  }

  /** A key left as it is by the rewrite: no underscore is followed by a
      lower-case letter. */
  predicate IsCamel(s: string)
  {
    |s| < 2 || ((s[0] != '_' || !IsLower(s[1])) && IsCamel(s[1..]))
  }

  /** A lower snake_case key: no upper-case letter, and every underscore is
      followed by a lower-case letter. */
  predicate IsSnake(s: string)
  {
    |s| == 0 || (!IsUpper(s[0]) && (s[0] == '_' ==> |s| >= 2 && IsLower(s[1])) && IsSnake(s[1..]))
  }

  predicate NoUnderscore(s: string) { '_' !in s }

  /** camelCase back to snake_case: an upper-case letter becomes an underscore
      and the letter in lower case. */
  function CamelToSnake(s: string): string
  {
    if |s| == 0 then ""
    else if IsUpper(s[0]) then ['_', ToLower(s[0])] + CamelToSnake(s[1..])
    else [s[0]] + CamelToSnake(s[1..])
  }

  /** The rewrite never starts a key with a lower-case letter that was not
      already its first character. */
  lemma SnakeToCamelHead(s: string)
    requires |s| > 0
    ensures |SnakeToCamel(s)| > 0
    ensures SnakeToCamel(s)[0] == s[0] || IsUpper(SnakeToCamel(s)[0])
  {
  }

  /** What the rewrite produces has no underscore left before a lower-case letter. */
  lemma {:induction false} SnakeToCamelIsCamel(s: string)
    ensures IsCamel(SnakeToCamel(s))
    decreases |s|
  {
    var r := SnakeToCamel(s);
    if |s| == 0 {
    } else if |s| >= 2 && s[0] == '_' && IsLower(s[1]) {
      SnakeToCamelIsCamel(s[2..]);
      assert r[1..] == SnakeToCamel(s[2..]);
    } else {
      SnakeToCamelIsCamel(s[1..]);
      assert r[1..] == SnakeToCamel(s[1..]);
      if |s| >= 2 {
        SnakeToCamelHead(s[1..]);
      }
    }
  }

  /** A key already in camelCase is left unchanged. */
  lemma {:induction false} CamelUnchanged(s: string)
    requires IsCamel(s)
    ensures SnakeToCamel(s) == s
    decreases |s|
  {
    if |s| > 0 {
      CamelUnchanged(s[1..]);
      assert s == [s[0]] + s[1..];
    }
  }

  /** Rewriting twice is rewriting once. */
  lemma SnakeToCamelIdempotent(s: string)
    ensures SnakeToCamel(SnakeToCamel(s)) == SnakeToCamel(s)
  {
    SnakeToCamelIsCamel(s);
    CamelUnchanged(SnakeToCamel(s));
  }

  /** A key without underscores is left unchanged. */
  lemma {:induction false} NoUnderscoreUnchanged(s: string)
    requires NoUnderscore(s)
    ensures IsCamel(s) && SnakeToCamel(s) == s
    decreases |s|
  {
    if |s| > 0 {
      assert s[1..] == s[1..] && forall k :: 0 <= k < |s[1..]| ==> s[1..][k] == s[k + 1];
      NoUnderscoreUnchanged(s[1..]);
    }
    CamelUnchanged(s);
  }

  /** On lower snake_case keys the rewrite is undone by CamelToSnake: no two
      such keys are rewritten to the same camelCase key. */
  lemma {:induction false} SnakeRoundTrip(s: string)
    requires IsSnake(s)
    ensures CamelToSnake(SnakeToCamel(s)) == s
    decreases |s|
  {
    if |s| == 0 {
    } else if |s| >= 2 && s[0] == '_' && IsLower(s[1]) {
      assert IsSnake(s[2..]) by { assert s[1..][1..] == s[2..]; }
      SnakeRoundTrip(s[2..]);
      var r := SnakeToCamel(s);
      assert r[1..] == SnakeToCamel(s[2..]);
      assert ToLower(ToUpper(s[1])) == s[1];
      assert s == ['_', s[1]] + s[2..];
    } else {
      SnakeRoundTrip(s[1..]);
      var r := SnakeToCamel(s);
      assert r[1..] == SnakeToCamel(s[1..]);
      assert s == [s[0]] + s[1..];
    }
  }

  /** A word without underscores is copied as it is. */
  lemma {:induction false} WordKept(w: string, rest: string)
    requires NoUnderscore(w)
    ensures SnakeToCamel(w + rest) == w + SnakeToCamel(rest)
    decreases |w|
  {
    if |w| > 0 {
      assert (w + rest)[1..] == w[1..] + rest;
      assert NoUnderscore(w[1..]) by { assert forall k :: 0 <= k < |w[1..]| ==> w[1..][k] == w[k + 1]; }
      WordKept(w[1..], rest);
      assert w == [w[0]] + w[1..];
    } else {
      assert w + rest == rest;
    }
  }

  /** An underscore and a lower-case letter become the letter in upper case. */
  lemma Hump(c: char, rest: string)
    requires IsLower(c)
    ensures SnakeToCamel(['_', c] + rest) == [ToUpper(c)] + SnakeToCamel(rest)
  {
    assert (['_', c] + rest)[2..] == rest;
  }

  /** Two snake_case words joined by an underscore. */
  lemma TwoWords(w1: string, c: char, w2: string)
    requires NoUnderscore(w1) && NoUnderscore(w2) && IsLower(c)
    ensures SnakeToCamel(w1 + ['_', c] + w2) == w1 + [ToUpper(c)] + w2
  {
    assert w1 + ['_', c] + w2 == w1 + (['_', c] + w2);
    WordKept(w1, ['_', c] + w2);
    Hump(c, w2);
    NoUnderscoreUnchanged(w2);
  }

  /** The keys of the test that have one underscore. */
  lemma NestedThingExample()
    ensures SnakeToCamel("nested_thing") == "nestedThing"
  {
    assert NoUnderscore("nested") && NoUnderscore("hing");
    TwoWords("nested", 't', "hing");
    assert ToUpper('t') == 'T';
    assert "nested" + ['_', 't'] + "hing" == "nested_thing";
    assert "nested" + ['T'] + "hing" == "nestedThing";
  }

  lemma SomeNumberExample()
    ensures SnakeToCamel("some_number") == "someNumber"
  {
    assert NoUnderscore("some") && NoUnderscore("umber");
    TwoWords("some", 'n', "umber");
    assert ToUpper('n') == 'N';
    assert "some" + ['_', 'n'] + "umber" == "some_number";
    assert "some" + ['N'] + "umber" == "someNumber";
  }

  lemma DeeperNestingExample()
    ensures SnakeToCamel("deeper_nesting") == "deeperNesting"
  {
    assert NoUnderscore("deeper") && NoUnderscore("esting");
    TwoWords("deeper", 'n', "esting");
    assert ToUpper('n') == 'N';
    assert "deeper" + ['_', 'n'] + "esting" == "deeper_nesting";
    assert "deeper" + ['N'] + "esting" == "deeperNesting";
  }

  lemma ArrayKeyExample()
    ensures SnakeToCamel("array_key") == "arrayKey"
  {
    assert NoUnderscore("array") && NoUnderscore("ey");
    TwoWords("array", 'k', "ey");
    assert ToUpper('k') == 'K';
    assert "array" + ['_', 'k'] + "ey" == "array_key";
    assert "array" + ['K'] + "ey" == "arrayKey";
  }

  lemma NotThereExample()
    ensures SnakeToCamel("not_there") == "notThere"
  {
    assert NoUnderscore("not") && NoUnderscore("here");
    TwoWords("not", 't', "here");
    assert ToUpper('t') == 'T';
    assert "not" + ['_', 't'] + "here" == "not_there";
    assert "not" + ['T'] + "here" == "notThere";
  }

  /** The key of the test that has two underscores. */
  lemma TwoHumpExample()
    ensures SnakeToCamel("a_long_key") == "aLongKey"
  {
    var tail := "ong" + ['_', 'k'] + "ey";
    TwoWords("ong", 'k', "ey");
    Hump('l', tail);
    WordKept("a", ['_', 'l'] + tail);
    assert "a_long_key" == "a" + (['_', 'l'] + tail);
  }

  /** The keys of the test without underscores. */
  lemma PlainExamples()
    ensures SnakeToCamel("key") == "key" && SnakeToCamel("bool") == "bool" && SnakeToCamel("value") == "value"
  {
    NoUnderscoreUnchanged("key");
    NoUnderscoreUnchanged("bool");
    NoUnderscoreUnchanged("value");
  }

  /** The rewrite of a parsed value: object keys are recased at every depth,
      arrays are rewritten element by element, every other value is kept. */
  function Recase(j: Json): (r: Json)
    ensures j.Arr? <==> r.Arr?
    ensures j.Obj? <==> r.Obj?
    ensures !j.Arr? && !j.Obj? ==> r == j
    ensures j.Arr? ==> |r.items| == |j.items|
    ensures j.Obj? ==> |r.members| == |j.members|
    ensures j.Obj? ==> forall i :: 0 <= i < |j.members| ==> r.members[i].key == SnakeToCamel(j.members[i].key)
  {
    match j
    case Arr(items) => Arr(seq(|items|, i requires 0 <= i < |items| => Recase(items[i])))
    case Obj(members) =>
      Obj(seq(|members|, i requires 0 <= i < |members| => Member(SnakeToCamel(members[i].key), Recase(members[i].value))))
    case _ => j
  }

  /** jsonToMessageProperties: parse the response body, then rewrite it;
      `None` stands for the SyntaxError of a body that is not JSON. */
  function JsonToMessageProperties(parse: seq<byte> -> Option<Json>, response: seq<byte>): (r: Option<Json>)
    ensures r.Some? <==> parse(response).Some?
    ensures r.Some? ==> RecasedFrom(parse(response).value, r.value)
    ensures r.Some? ==> SameShape(parse(response).value, r.value) && AllKeys(r.value, IsCamel)
  {
    match parse(response)
    case None => None
    case Some(j) =>
      RecaseRecasedFrom(j);
      RecaseSameShape(j);
      RecaseCamelKeys(j);
      Some(Recase(j))
  }

  /** `b` is `a` with every object key, at every depth, replaced by its
      camelCase form: same kinds, sizes and order, the i-th key of each object
      of `b` the rewrite of the i-th key of the matching object of `a`, and
      every string, number, boolean and null unchanged. */
  predicate RecasedFrom(a: Json, b: Json)
    decreases a
  {
    match a
    case Arr(xs) => b.Arr? && |b.items| == |xs| && forall i :: 0 <= i < |xs| ==> RecasedFrom(xs[i], b.items[i])
    case Obj(ms) =>
      b.Obj? && |b.members| == |ms|
      && forall i :: 0 <= i < |ms| ==>
           b.members[i].key == SnakeToCamel(ms[i].key) && RecasedFrom(ms[i].value, b.members[i].value)
    case _ => b == a
  }

  /** The rewrite recases every key at every depth and touches nothing else. */
  lemma {:induction false} RecaseRecasedFrom(j: Json)
    ensures RecasedFrom(j, Recase(j))
    decreases j
  {
    match j
    case Arr(xs) =>
      forall i | 0 <= i < |xs| ensures RecasedFrom(xs[i], Recase(j).items[i]) {
        RecaseRecasedFrom(xs[i]);
      }
    case Obj(ms) =>
      forall i | 0 <= i < |ms| ensures RecasedFrom(ms[i].value, Recase(j).members[i].value) {
        RecaseRecasedFrom(ms[i].value);
      }
    case _ =>
  }

  /** Only the rewrite is so related to its input: any value recased from `a`
      is `Recase(a)`. */
  lemma {:induction false} RecasedFromUnique(a: Json, b: Json)
    requires RecasedFrom(a, b)
    ensures b == Recase(a)
    decreases a
  {
    match a
    case Arr(xs) =>
      forall i | 0 <= i < |xs| ensures b.items[i] == Recase(a).items[i] {
        RecasedFromUnique(xs[i], b.items[i]);
      }
      assert b.items == Recase(a).items;
    case Obj(ms) =>
      forall i | 0 <= i < |ms| ensures b.members[i] == Recase(a).members[i] {
        RecasedFromUnique(ms[i].value, b.members[i].value);
      }
      assert b.members == Recase(a).members;
    case _ =>
  }

  /** `a` and `b` have the same node kind at every position, arrays and
      objects of the same sizes, and equal strings, numbers, booleans and
      nulls; object keys may differ. */
  predicate SameShape(a: Json, b: Json)
    decreases a
  {
    match a
    case Arr(xs) => b.Arr? && |b.items| == |xs| && forall i :: 0 <= i < |xs| ==> SameShape(xs[i], b.items[i])
    case Obj(ms) =>
      b.Obj? && |b.members| == |ms| && forall i :: 0 <= i < |ms| ==> SameShape(ms[i].value, b.members[i].value)
    case _ => b == a
  }

  /** Every object key of `j`, at every depth, satisfies `p`. */
  predicate AllKeys(j: Json, p: string -> bool)
    decreases j
  {
    match j
    case Arr(xs) => forall i :: 0 <= i < |xs| ==> AllKeys(xs[i], p)
    case Obj(ms) => forall i :: 0 <= i < |ms| ==> p(ms[i].key) && AllKeys(ms[i].value, p)
    case _ => true
  }

  /** The rewrite keeps the tree: same kinds, same sizes, same order, and
      every string, number, boolean and null unchanged. */
  lemma {:induction false} RecaseSameShape(j: Json)
    ensures SameShape(j, Recase(j))
    decreases j
  {
    match j
    case Arr(xs) =>
      forall i | 0 <= i < |xs| ensures SameShape(xs[i], Recase(j).items[i]) {
        RecaseSameShape(xs[i]);
      }
    case Obj(ms) =>
      forall i | 0 <= i < |ms| ensures SameShape(ms[i].value, Recase(j).members[i].value) {
        RecaseSameShape(ms[i].value);
      }
    case _ =>
  }

  /** After the rewrite no key, at any depth, has an underscore before a
      lower-case letter. */
  lemma {:induction false} RecaseCamelKeys(j: Json)
    ensures AllKeys(Recase(j), IsCamel)
    decreases j
  {
    match j
    case Arr(xs) =>
      forall i | 0 <= i < |xs| ensures AllKeys(Recase(j).items[i], IsCamel) {
        RecaseCamelKeys(xs[i]);
      }
    case Obj(ms) =>
      forall i | 0 <= i < |ms|
        ensures IsCamel(Recase(j).members[i].key) && AllKeys(Recase(j).members[i].value, IsCamel)
      {
        SnakeToCamelIsCamel(ms[i].key);
        RecaseCamelKeys(ms[i].value);
      }
    case _ =>
  }

  /** A value whose keys are all camelCase already is left unchanged. */
  lemma {:induction false} RecaseKeepsCamel(j: Json)
    requires AllKeys(j, IsCamel)
    ensures Recase(j) == j
    decreases j
  {
    match j
    case Arr(xs) =>
      forall i | 0 <= i < |xs| ensures Recase(j).items[i] == xs[i] {
        RecaseKeepsCamel(xs[i]);
      }
      assert Recase(j).items == xs;
    case Obj(ms) =>
      forall i | 0 <= i < |ms| ensures Recase(j).members[i] == ms[i] {
        CamelUnchanged(ms[i].key);
        RecaseKeepsCamel(ms[i].value);
      }
      assert Recase(j).members == ms;
    case _ =>
  }

  /** Rewriting a rewritten value changes nothing. */
  lemma RecaseIdempotent(j: Json)
    ensures Recase(Recase(j)) == Recase(j)
  {
    RecaseCamelKeys(j);
    RecaseKeepsCamel(Recase(j));
  }

  /** Keys without underscores make every key camelCase. */
  lemma {:induction false} NoUnderscoreKeysAreCamel(j: Json)
    requires AllKeys(j, NoUnderscore)
    ensures AllKeys(j, IsCamel)
    decreases j
  {
    match j
    case Arr(xs) =>
      forall i | 0 <= i < |xs| ensures AllKeys(xs[i], IsCamel) {
        NoUnderscoreKeysAreCamel(xs[i]);
      }
    case Obj(ms) =>
      forall i | 0 <= i < |ms| ensures IsCamel(ms[i].key) && AllKeys(ms[i].value, IsCamel) {
        NoUnderscoreUnchanged(ms[i].key);
        NoUnderscoreKeysAreCamel(ms[i].value);
      }
    case _ =>
  }

  /** A value none of whose keys has an underscore is returned unchanged. */
  lemma RecaseWithoutUnderscores(j: Json)
    requires AllKeys(j, NoUnderscore)
    ensures Recase(j) == j
  {
    NoUnderscoreKeysAreCamel(j);
    RecaseKeepsCamel(j);
  }

  /** The response of the test, as parsed. */
  function TestInput(): Json
  {
    Obj([
      Member("a_long_key", Str("value1")),
      Member("nested_thing", Obj([
        Member("some_number", Num(5)),
        Member("deeper_nesting", Obj([Member("value", Null)]))])),
      Member("array_key", Arr([
        Obj([Member("key", Str("value"))]),
        Obj([Member("bool", Bool(false))]),
        Obj([Member("not_there", Null)])]))])
  }

  /** The message properties the test expects. */
  function TestOutput(): Json
  {
    Obj([
      Member("aLongKey", Str("value1")),
      Member("nestedThing", Obj([
        Member("someNumber", Num(5)),
        Member("deeperNesting", Obj([Member("value", Null)]))])),
      Member("arrayKey", Arr([
        Obj([Member("key", Str("value"))]),
        Obj([Member("bool", Bool(false))]),
        Obj([Member("notThere", Null)])]))])
  }

  /** The rewrite of objects with one, two and three members, and of an
      array of three elements, given the rewrite of their parts. */
  lemma RecaseOne(k: string, v: Json, k': string, v': Json)
    requires SnakeToCamel(k) == k' && Recase(v) == v'
    ensures Recase(Obj([Member(k, v)])) == Obj([Member(k', v')])
  {
    assert Recase(Obj([Member(k, v)])).members == [Member(k', v')];
  }

  lemma RecaseTwo(k0: string, v0: Json, k1: string, v1: Json, r0: Member, r1: Member)
    requires r0 == Member(SnakeToCamel(k0), Recase(v0)) && r1 == Member(SnakeToCamel(k1), Recase(v1))
    ensures Recase(Obj([Member(k0, v0), Member(k1, v1)])) == Obj([r0, r1])
  {
    assert Recase(Obj([Member(k0, v0), Member(k1, v1)])).members == [r0, r1];
  }

  lemma RecaseThree(m0: Member, m1: Member, m2: Member, r0: Member, r1: Member, r2: Member)
    requires r0 == Member(SnakeToCamel(m0.key), Recase(m0.value))
    requires r1 == Member(SnakeToCamel(m1.key), Recase(m1.value))
    requires r2 == Member(SnakeToCamel(m2.key), Recase(m2.value))
    ensures Recase(Obj([m0, m1, m2])) == Obj([r0, r1, r2])
  {
    assert Recase(Obj([m0, m1, m2])).members == [r0, r1, r2];
  }

  lemma RecaseArrThree(a0: Json, a1: Json, a2: Json, r0: Json, r1: Json, r2: Json)
    requires Recase(a0) == r0 && Recase(a1) == r1 && Recase(a2) == r2
    ensures Recase(Arr([a0, a1, a2])) == Arr([r0, r1, r2])
  {
    assert Recase(Arr([a0, a1, a2])).items == [r0, r1, r2];
  }

  /** The test's input and expected output. */
  lemma TestVector(parse: seq<byte> -> Option<Json>, response: seq<byte>)
    requires parse(response) == Some(TestInput())
    ensures JsonToMessageProperties(parse, response) == Some(TestOutput())
  {
    PlainExamples();
    var deeper := Obj([Member("value", Null)]);
    RecaseOne("value", Null, "value", Null);
    DeeperNestingExample();
    SomeNumberExample();
    RecaseTwo("some_number", Num(5), "deeper_nesting", deeper, Member("someNumber", Num(5)), Member("deeperNesting", deeper));
    var a0 := Obj([Member("key", Str("value"))]);
    var a1 := Obj([Member("bool", Bool(false))]);
    var a2 := Obj([Member("not_there", Null)]);
    RecaseOne("key", Str("value"), "key", Str("value"));
    RecaseOne("bool", Bool(false), "bool", Bool(false));
    NotThereExample();
    RecaseOne("not_there", Null, "notThere", Null);
    RecaseArrThree(a0, a1, a2, a0, a1, Obj([Member("notThere", Null)]));
    TwoHumpExample();
    NestedThingExample();
    ArrayKeyExample();
    var input := TestInput();
    var output := TestOutput();
    RecaseThree(input.members[0], input.members[1], input.members[2],
                output.members[0], output.members[1], output.members[2]);
  }
}
