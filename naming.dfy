/**
 * The naming-convention translator of a schema: property names move between a
 * server convention and a client convention, each one of `camelCase`,
 * `snake_case` and `literal`.
 *
 * Only ASCII letters are case-mapped: the two rewrites look for `[a-z]` and
 * `[A-Z]`, and the model lowercases and uppercases those letters only.
 */
module Naming {
  import opened Wrappers

  datatype Convention = CamelCase | SnakeCase | Literal

  /** What a call returns: the translated name, and whether a warning was emitted. */
  datatype Transformed = Transformed(name: string, warned: bool)

  // ---------------------------------------------------------------------------
  // ASCII letters
  // ---------------------------------------------------------------------------

  predicate IsUpper(c: char) { 'A' <= c <= 'Z' }

  predicate IsLower(c: char) { 'a' <= c <= 'z' }

  function ToUpper(c: char): char
  {
    if IsLower(c) then (c as int - 32) as char else c
  }

  function ToLower(c: char): char
  {
    if IsUpper(c) then (c as int + 32) as char else c
  }

  /** No ASCII upper-case letter anywhere in `s`. */
  predicate NoUpper(s: string)
  {
    forall i :: 0 <= i < |s| ==> !IsUpper(s[i])
  }

  /** No `_` immediately followed by an ASCII lower-case letter: nothing for `/_([a-z])/` to match. */
  predicate NoSnakePair(s: string)
  {
    forall i :: 0 <= i < |s| - 1 ==> !(s[i] == '_' && IsLower(s[i + 1]))
  }

  /** The number of positions where an `_` is followed by an ASCII lower-case letter. */
  function PairCount(s: string): nat
  {
    if |s| < 2 then 0
    else (if s[0] == '_' && IsLower(s[1]) then 1 else 0) + PairCount(s[1..])
  }

  /** The number of ASCII upper-case letters in `s`. */
  function UpperCount(s: string): nat
  {
    if |s| == 0 then 0
    else (if IsUpper(s[0]) then 1 else 0) + UpperCount(s[1..])
  }

  // ---------------------------------------------------------------------------
  // snake_case -> camelCase: `replace(/_([a-z])/g, letter => letter.toUpperCase())`
  // ---------------------------------------------------------------------------

  /**
   * The left-to-right, non-overlapping scan of the global regex: an `_` followed
   * by a lower-case letter is replaced by that letter upper-cased and the scan
   * resumes after the pair; any other character is kept and the scan moves on
   * by one. Every match removes exactly one character, and a match can never
   * overlap the next one (its second character is a letter, not `_`), so the
   * number of matches is PairCount.
   */
  function SnakeToCamel(s: string): (r: string)
    ensures |r| == |s| - PairCount(s)
    decreases |s|
  {
    if |s| == 0 then []
    else if |s| >= 2 && s[0] == '_' && IsLower(s[1]) then
      assert PairCount(s[1..]) == PairCount(s[2..]);
      [ToUpper(s[1])] + SnakeToCamel(s[2..])
    else
      [s[0]] + SnakeToCamel(s[1..])
  }

  // ---------------------------------------------------------------------------
  // camelCase -> snake_case: `replace(/([A-Z])/g, "_$1").toLowerCase()`
  // ---------------------------------------------------------------------------

  /** The first stage: an `_` inserted before every upper-case letter. */
  function MarkUppers(s: string): (r: string)
    ensures |r| == |s| + UpperCount(s)
  {
    if |s| == 0 then []
    else (if IsUpper(s[0]) then ['_', s[0]] else [s[0]]) + MarkUppers(s[1..])
  }

  /** The second stage: the whole string lower-cased. */
  function LowerAscii(s: string): (r: string)
    ensures |r| == |s|
    ensures NoUpper(r)
  {
    seq(|s|, i requires 0 <= i < |s| => ToLower(s[i]))
  }

  /**
   * camelCase to snake_case. The result has no upper-case letter and is longer
   * than the input by the number of upper-case letters in it; a leading
   * upper-case letter therefore gives a leading `_` (`"Name"` becomes `"_name"`).
   */
  function CamelToSnake(s: string): (r: string)
    ensures |r| == |s| + UpperCount(s)
    ensures NoUpper(r)
  {
    LowerAscii(MarkUppers(s))
  }

  // ---------------------------------------------------------------------------
  // The entry point
  // ---------------------------------------------------------------------------

  /**
   * `transformPropertyName(propertyName, sourceFormat, targetFormat)`: an omitted
   * (`undefined`) format is `literal`. snake_case to camelCase and camelCase to
   * snake_case rewrite the name; a `literal` target or equal formats keep it;
   * every other pair keeps it too after a warning. There is no error case.
   */
  function TransformPropertyName(propertyName: string, sourceFormat: Option<Convention>, targetFormat: Option<Convention>): (r: Transformed)
    ensures var src, tgt := sourceFormat.GetOr(Literal), targetFormat.GetOr(Literal);
      && (src == SnakeCase && tgt == CamelCase ==> r.name == SnakeToCamel(propertyName))
      && (src == CamelCase && tgt == SnakeCase ==> r.name == CamelToSnake(propertyName))
      && (tgt == Literal || src == tgt ==> r.name == propertyName)
      && (r.name != propertyName ==> (src == SnakeCase && tgt == CamelCase) || (src == CamelCase && tgt == SnakeCase))
      && (r.warned <==> src == Literal && tgt != Literal)
      && (r.warned ==> r.name == propertyName)
    ensures targetFormat == None ==> r == Transformed(propertyName, false)
  {
    var src, tgt := sourceFormat.GetOr(Literal), targetFormat.GetOr(Literal);
    if src == SnakeCase && tgt == CamelCase then
      Transformed(SnakeToCamel(propertyName), false)
    else if src == CamelCase && tgt == SnakeCase then
      Transformed(CamelToSnake(propertyName), false)
    else if tgt == Literal || src == tgt then
      Transformed(propertyName, false)
    else
      Transformed(propertyName, true)
  }

  // ---------------------------------------------------------------------------
  // Lemmas
  // ---------------------------------------------------------------------------

  lemma LowerUpperInverse(c: char)
    requires IsLower(c)
    ensures IsUpper(ToUpper(c)) && ToLower(ToUpper(c)) == c
  {
  }

  /** CamelToSnake works character by character. */
  lemma {:induction false} CamelToSnakeCons(s: string)
    requires |s| > 0
    ensures CamelToSnake(s) == (if IsUpper(s[0]) then ['_', ToLower(s[0])] else [ToLower(s[0])]) + CamelToSnake(s[1..])
  {
    var head := if IsUpper(s[0]) then ['_', s[0]] else [s[0]];
    var a, b := LowerAscii(head), LowerAscii(MarkUppers(s[1..]));
    assert MarkUppers(s) == head + MarkUppers(s[1..]);
    assert LowerAscii(head + MarkUppers(s[1..])) == a + b;
  }

  /** The first character SnakeToCamel produces. */
  lemma SnakeToCamelHead(s: string)
    requires |s| > 0
    ensures |SnakeToCamel(s)| > 0
    ensures SnakeToCamel(s)[0] == if |s| >= 2 && s[0] == '_' && IsLower(s[1]) then ToUpper(s[1]) else s[0]
  {
  }

  /** No `_x` pair survives the snake_case to camelCase rewrite. */
  lemma {:induction false} SnakeToCamelNoPair(s: string)
    ensures NoSnakePair(SnakeToCamel(s))
    decreases |s|
  {
    if |s| == 0 {
    } else if |s| >= 2 && s[0] == '_' && IsLower(s[1]) {
      var rest := SnakeToCamel(s[2..]);
      SnakeToCamelNoPair(s[2..]);
      var r := [ToUpper(s[1])] + rest;
      assert r == SnakeToCamel(s);
      forall i | 0 <= i < |r| - 1 ensures !(r[i] == '_' && IsLower(r[i + 1])) {
        if i > 0 {
          assert r[i] == rest[i - 1] && r[i + 1] == rest[i];
        }
      }
    } else {
      var rest := SnakeToCamel(s[1..]);
      SnakeToCamelNoPair(s[1..]);
      var r := [s[0]] + rest;
      assert r == SnakeToCamel(s);
      if |s| >= 2 {
        SnakeToCamelHead(s[1..]);
      }
      forall i | 0 <= i < |r| - 1 ensures !(r[i] == '_' && IsLower(r[i + 1])) {
        if i > 0 {
          assert r[i] == rest[i - 1] && r[i + 1] == rest[i];
        }
      }
    }
  }

  /** SnakeToCamel changes a name exactly when it contains an `_x` pair. */
  lemma {:induction false} SnakeToCamelFixedPoint(s: string)
    ensures SnakeToCamel(s) == s <==> NoSnakePair(s)
    decreases |s|
  {
    SnakeToCamelNoPair(s);
    if NoSnakePair(s) && |s| > 0 {
      assert NoSnakePair(s[1..]) by {
        forall i | 0 <= i < |s[1..]| - 1 ensures !(s[1..][i] == '_' && IsLower(s[1..][i + 1])) {
          assert s[1..][i] == s[i + 1] && s[1..][i + 1] == s[i + 2];
        }
      }
      SnakeToCamelFixedPoint(s[1..]);
      assert SnakeToCamel(s) == [s[0]] + s[1..];
    }
  }

  /** CamelToSnake changes a name exactly when it contains an upper-case letter. */
  lemma {:induction false} CamelToSnakeFixedPoint(s: string)
    ensures CamelToSnake(s) == s <==> NoUpper(s)
    decreases |s|
  {
    if NoUpper(s) && |s| > 0 {
      CamelToSnakeCons(s);
      assert NoUpper(s[1..]) by {
        forall i | 0 <= i < |s[1..]| ensures !IsUpper(s[1..][i]) {
          assert s[1..][i] == s[i + 1];
        }
      }
      CamelToSnakeFixedPoint(s[1..]);
      assert CamelToSnake(s) == [s[0]] + s[1..];
    }
  }

  /** Both rewrites are idempotent. */
  lemma Idempotent(s: string)
    ensures SnakeToCamel(SnakeToCamel(s)) == SnakeToCamel(s)
    ensures CamelToSnake(CamelToSnake(s)) == CamelToSnake(s)
  {
    SnakeToCamelNoPair(s);
    SnakeToCamelFixedPoint(SnakeToCamel(s));
    CamelToSnakeFixedPoint(CamelToSnake(s));
  }

  /**
   * snake_case, then camelCase, then snake_case again gives back the name exactly
   * when it has no upper-case letter (a CamelToSnake result never has one).
   */
  lemma {:induction false} SnakeCamelSnake(s: string)
    ensures CamelToSnake(SnakeToCamel(s)) == s <==> NoUpper(s)
    decreases |s|
  {
    if NoUpper(s) && |s| > 0 {
      if |s| >= 2 && s[0] == '_' && IsLower(s[1]) {
        var rest := SnakeToCamel(s[2..]);
        assert NoUpper(s[2..]) by {
          forall i | 0 <= i < |s[2..]| ensures !IsUpper(s[2..][i]) {
            assert s[2..][i] == s[i + 2];
          }
        }
        SnakeCamelSnake(s[2..]);
        var t := [ToUpper(s[1])] + rest;
        assert t == SnakeToCamel(s);
        LowerUpperInverse(s[1]);
        CamelToSnakeCons(t);
        assert t[1..] == rest;
        assert CamelToSnake(t) == ['_', s[1]] + s[2..];
        assert s == ['_', s[1]] + s[2..];
      } else {
        var rest := SnakeToCamel(s[1..]);
        assert NoUpper(s[1..]) by {
          forall i | 0 <= i < |s[1..]| ensures !IsUpper(s[1..][i]) {
            assert s[1..][i] == s[i + 1];
          }
        }
        SnakeCamelSnake(s[1..]);
        var t := [s[0]] + rest;
        assert t == SnakeToCamel(s);
        CamelToSnakeCons(t);
        assert t[1..] == rest;
        assert CamelToSnake(t) == [s[0]] + s[1..];
      }
    }
  }

  /**
   * camelCase, then snake_case, then camelCase again gives back the name exactly
   * when it has no `_x` pair (a SnakeToCamel result never has one). `"a_B"`
   * survives (`"a__b"` and back), `"a_b"` does not (`"aB"`).
   */
  lemma {:induction false} CamelSnakeCamel(c: string)
    ensures SnakeToCamel(CamelToSnake(c)) == c <==> NoSnakePair(c)
    decreases |c|
  {
    SnakeToCamelNoPair(CamelToSnake(c));
    if NoSnakePair(c) && |c| > 0 {
      var t := c[1..];
      assert NoSnakePair(t) by {
        forall i | 0 <= i < |t| - 1 ensures !(t[i] == '_' && IsLower(t[i + 1])) {
          assert t[i] == c[i + 1] && t[i + 1] == c[i + 2];
        }
      }
      CamelSnakeCamel(t);
      var rest := CamelToSnake(t);
      CamelToSnakeCons(c);
      if IsUpper(c[0]) {
        var s := ['_', ToLower(c[0])] + rest;
        assert s == CamelToSnake(c);
        assert s[2..] == rest;
        assert SnakeToCamel(s) == [ToUpper(ToLower(c[0]))] + SnakeToCamel(rest);
      } else {
        var s := [c[0]] + rest;
        assert s == CamelToSnake(c);
        assert s[1..] == rest;
        if |t| > 0 {
          CamelToSnakeCons(t);
          assert IsLower(rest[0]) <==> IsLower(t[0]);
        }
        assert SnakeToCamel(s) == [c[0]] + SnakeToCamel(rest);
      }
    }
  }

  /** The round trip through the entry point, snake_case to camelCase and back. */
  lemma TransformRoundTrip(name: string)
    ensures var camel := TransformPropertyName(name, Some(SnakeCase), Some(CamelCase)).name;
      TransformPropertyName(camel, Some(CamelCase), Some(SnakeCase)).name == name <==> NoUpper(name)
  {
    SnakeCamelSnake(name);
  }

  /** `"a_b"` becomes `"aB"`; in `"a__b"` only the second `_` starts a match, giving `"a_B"`. */
  lemma SnakeToCamelExamples()
    ensures SnakeToCamel("a_b") == "aB"
    ensures SnakeToCamel("a__b") == "a_B"
  {
  }

  /** `"xId"` becomes `"x_id"`; a leading upper-case letter gives a leading `_`: `"Name"` becomes `"_name"`. */
  lemma CamelToSnakeExamples()
    ensures CamelToSnake("xId") == "x_id"
    ensures CamelToSnake("Name") == "_name"
  {
  }

  /** Text containing no `_` passes through the snake_case to camelCase rewrite unchanged. */
  lemma {:induction false} SnakeToCamelPlainPrefix(p: string, t: string)
    requires forall i :: 0 <= i < |p| ==> p[i] != '_'
    ensures SnakeToCamel(p + t) == p + SnakeToCamel(t)
    decreases |p|
  {
    if |p| > 0 {
      assert (p + t)[0] == p[0];
      assert (p + t)[1..] == p[1..] + t;
      SnakeToCamelPlainPrefix(p[1..], t);
      assert p + SnakeToCamel(t) == [p[0]] + (p[1..] + SnakeToCamel(t));
    } else {
      assert p + t == t;
    }
  }

  /** `"first_name"` becomes `"firstName"`. */
  lemma FirstNameToCamel()
    ensures SnakeToCamel("first_name") == "firstName"
  {
    var first, name := "first", "_name";
    assert first + name == "first_name";
    SnakeToCamelPlainPrefix(first, name);
    SnakeToCamelPlainPrefix("ame", "");
    assert "ame" + "" == "ame";
    assert SnakeToCamel(name) == "N" + SnakeToCamel("ame");
    assert first + ("N" + "ame") == "firstName";
  }

  /** `"firstName"` becomes `"first_name"`. */
  lemma FirstNameToSnake()
    ensures CamelToSnake("firstName") == "first_name"
  {
  }

  /** Through the entry point, `"first_name"` to camelCase and back is `"first_name"` again. */
  lemma FirstNameRoundTrip()
    ensures var camel := TransformPropertyName("first_name", Some(SnakeCase), Some(CamelCase)).name;
      TransformPropertyName(camel, Some(CamelCase), Some(SnakeCase)).name == "first_name"
  {
    assert NoUpper("first_name");
    TransformRoundTrip("first_name");
  }
}
