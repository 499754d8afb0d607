/**
 * The two steps of bash that give the generated text its meaning: splitting an unquoted
 * command line into words at blanks, and substituting the positional parameters `$1`..`$9`
 * of a function body with the words the function was called with.
 */
module Shell {
  import opened Common

  /** A word as field splitting produces it: non-empty and free of blanks. */
  predicate IsWord(w: string)
  {
    |w| > 0 && ' ' !in w
  }

  /** A word that also holds no `$`, so the shell passes it on unchanged. */
  predicate IsPlainWord(w: string)
  {
    IsWord(w) && '$' !in w
  }

  /** Length of the word that starts `s`: up to the first blank or the end. */
  function WordEnd(s: string): (k: nat)
    ensures k <= |s|
    ensures forall i :: 0 <= i < k ==> s[i] != ' '
    ensures k < |s| ==> s[k] == ' '
  {
    if s == [] || s[0] == ' ' then 0 else 1 + WordEnd(s[1..])
  }

  /** The words of a command line, left to right; runs of blanks separate, empty words vanish. */
  function Words(s: string): (ws: seq<string>)
    ensures forall i :: 0 <= i < |ws| ==> IsWord(ws[i])
    decreases |s|
  {
    if s == [] then []
    else if s[0] == ' ' then Words(s[1..])
    else
      var k := WordEnd(s);
      [s[..k]] + Words(s[k..])
  }

  /** Words joined by single blanks: how a generator writes a command line. */
  function Unwords(ws: seq<string>): (s: string)
  {
    if ws == [] then ""
    else if |ws| == 1 then ws[0]
    else ws[0] + " " + Unwords(ws[1..])
  }

  lemma {:induction false} WordEndOfWord(w: string, t: string)
    requires ' ' !in w
    requires t == [] || t[0] == ' '
    ensures WordEnd(w + t) == |w|
  {
    if w != [] {
      assert (w + t)[1..] == w[1..] + t;
      WordEndOfWord(w[1..], t);
    }
  }

  /** A word followed by a blank is split off as the first word. */
  lemma WordsCons(w: string, rest: string)
    requires IsWord(w)
    ensures Words(w + " " + rest) == [w] + Words(rest)
  {
    var s := w + " " + rest;
    WordEndOfWord(w, " " + rest);
    assert s == w + (" " + rest);
    assert s[..|w|] == w;
    assert s[|w|..] == " " + rest;
    assert (" " + rest)[1..] == rest;
  }

  /** A lone word is the only word. */
  lemma WordsSingle(w: string)
    requires IsWord(w)
    ensures Words(w) == [w]
  {
    WordEndOfWord(w, []);
    assert w + [] == w;
    assert w[..|w|] == w;
  }

  /** Splitting undoes joining, for words that hold no blank. */
  lemma {:induction false} WordsUnwords(ws: seq<string>)
    requires forall i :: 0 <= i < |ws| ==> IsWord(ws[i])
    ensures Words(Unwords(ws)) == ws
  {
    if |ws| == 1 {
      WordsSingle(ws[0]);
    } else if |ws| > 1 {
      WordsUnwords(ws[1..]);
      WordsCons(ws[0], Unwords(ws[1..]));
      assert ws == [ws[0]] + ws[1..];
    }
  }

  /** A leading blank separates nothing: it is dropped. */
  lemma WordsBlank(b: string)
    ensures Words(" " + b) == Words(b)
  {
    assert (" " + b)[1..] == b;
  }

  /** Text that follows a blank does not change where the word at the front ends. */
  lemma {:induction false} WordEndBeforeBlank(a: string, t: string)
    requires t == [] || t[0] == ' '
    ensures WordEnd(a + t) == WordEnd(a)
    decreases |a|
  {
    if a == [] {
      assert a + t == t;
    } else if a[0] != ' ' {
      assert (a + t)[1..] == a[1..] + t;
      WordEndBeforeBlank(a[1..], t);
    }
  }

  /**
   * Two texts joined by a blank: the words of the first, then the words of the second. The first
   * may itself hold blanks, as a command made of several words does.
   */
  lemma {:induction false} WordsJoin(a: string, b: string)
    ensures Words(a + " " + b) == Words(a) + Words(b)
    decreases |a|, 1
  {
    var s := a + " " + b;
    if a == [] {
      calc {
        Words(s);
        { assert s == " " + b; }
        Words(" " + b);
        { WordsBlank(b); }
        Words(b);
        Words(a) + Words(b);
      }
    } else if a[0] == ' ' {
      calc {
        Words(s);
        { assert s[0] == ' '; }
        Words(s[1..]);
        { assert s[1..] == a[1..] + " " + b; }
        Words(a[1..] + " " + b);
        { WordsJoin(a[1..], b); }
        Words(a[1..]) + Words(b);
        Words(a) + Words(b);
      }
    } else {
      var k := WordEnd(a);
      assert WordEnd(s) == k by {
        WordEndBeforeBlank(a, " " + b);
        assert s == a + (" " + b);
      }
      assert s[..k] == a[..k] && s[k..] == a[k..] + " " + b by {
        assert s == a + (" " + b);
      }
      calc {
        Words(s);
        { assert s[0] == a[0] != ' '; }
        [s[..k]] + Words(s[k..]);
        [a[..k]] + Words(a[k..] + " " + b);
        { WordsJoinRest(a, k, b); }
        [a[..k]] + (Words(a[k..]) + Words(b));
        ([a[..k]] + Words(a[k..])) + Words(b);
        Words(a) + Words(b);
      }
    }
  }

  /** The step of `WordsJoin` after the first word of `a`, which ends at `k`. */
  lemma {:induction false} WordsJoinRest(a: string, k: nat, b: string)
    requires 0 < k <= |a|
    ensures Words(a[k..] + " " + b) == Words(a[k..]) + Words(b)
    decreases |a|, 0
  {
    if k < |a| {
      WordsJoin(a[k..], b);
    } else {
      calc {
        Words(a[k..] + " " + b);
        { assert a[k..] + " " + b == " " + b; }
        Words(" " + b);
        { WordsBlank(b); }
        Words(b);
        { assert a[k..] == []; }
        Words(a[k..]) + Words(b);
      }
    }
  }

  /** Joined words followed by a blank and more text: the words come first, then the rest's. */
  lemma {:induction false} WordsUnwordsThen(ws: seq<string>, rest: string)
    requires |ws| > 0
    requires forall i :: 0 <= i < |ws| ==> IsWord(ws[i])
    ensures Words(Unwords(ws) + " " + rest) == ws + Words(rest)
  {
    if |ws| == 1 {
      calc {
        Words(Unwords(ws) + " " + rest);
        Words(ws[0] + " " + rest);
        { WordsCons(ws[0], rest); }
        [ws[0]] + Words(rest);
        { assert ws == [ws[0]]; }
        ws + Words(rest);
      }
    } else {
      var u := Unwords(ws[1..]);
      calc {
        Words(Unwords(ws) + " " + rest);
        { assert Unwords(ws) + " " + rest == ws[0] + " " + (u + " " + rest); }
        Words(ws[0] + " " + (u + " " + rest));
        { WordsCons(ws[0], u + " " + rest); }
        [ws[0]] + Words(u + " " + rest);
        { WordsUnwordsThen(ws[1..], rest); }
        [ws[0]] + (ws[1..] + Words(rest));
        { assert ws == [ws[0]] + ws[1..]; }
        ws + Words(rest);
      }
    }
  }

  /** The word that follows the first occurrence of `flag`, if there is one. */
  function ArgAfter(ws: seq<string>, flag: string): (r: Option<string>)
    ensures r.Some? ==> r.value in ws
  {
    if |ws| < 2 then None
    else if ws[0] == flag then Some(ws[1])
    else ArgAfter(ws[1..], flag)
  }

  /** The value after the first occurrence of `flag`, wherever that occurrence is. */
  lemma {:induction false} ArgAfterFirst(ws: seq<string>, flag: string, k: nat)
    requires k + 1 < |ws| && ws[k] == flag
    requires forall i :: 0 <= i < k ==> ws[i] != flag
    ensures ArgAfter(ws, flag) == Some(ws[k + 1])
    decreases k
  {
    if k > 0 {
      assert forall i :: 0 <= i < k - 1 ==> ws[1..][i] == ws[i + 1];
      ArgAfterFirst(ws[1..], flag, k - 1);
    }
  }

  /** Words in front that are not `flag` do not change the value that follows it. */
  lemma {:induction false} ArgAfterSkip(xs: seq<string>, ys: seq<string>, flag: string)
    requires flag !in xs
    ensures ArgAfter(xs + ys, flag) == ArgAfter(ys, flag)
    decreases |xs|
  {
    if xs == [] {
      assert xs + ys == ys;
    } else {
      assert (xs + ys)[0] == xs[0];
      assert (xs + ys)[1..] == xs[1..] + ys;
      if |xs + ys| < 2 {
        assert xs[1..] + ys == [];
      } else {
        ArgAfterSkip(xs[1..], ys, flag);
      }
    }
  }

  /** A value found in a prefix of the words is the value found in all of them. */
  lemma {:induction false} ArgAfterPrefix(pre: seq<string>, ws: seq<string>, flag: string)
    requires pre <= ws && ArgAfter(pre, flag).Some?
    ensures ArgAfter(ws, flag) == ArgAfter(pre, flag)
    decreases |pre|
  {
    assert ws[0] == pre[0] && ws[1] == pre[1];
    if pre[0] != flag {
      assert pre[1..] <= ws[1..];
      ArgAfterPrefix(pre[1..], ws[1..], flag);
    }
  }

  /** Joining two non-empty word lists: the joins of each, separated by one blank. */
  lemma {:induction false} UnwordsAppend(xs: seq<string>, ys: seq<string>)
    requires |xs| > 0 && |ys| > 0
    ensures Unwords(xs + ys) == Unwords(xs) + " " + Unwords(ys)
    decreases |xs|
  {
    var zs := xs + ys;
    assert zs[0] == xs[0];
    if |xs| == 1 {
      assert zs[1..] == ys;
      assert Unwords(zs) == xs[0] + " " + Unwords(ys);
    } else {
      assert zs[1..] == xs[1..] + ys;
      UnwordsAppend(xs[1..], ys);
      var u := Unwords(xs[1..]);
      var v := Unwords(ys);
      calc {
        Unwords(zs);
        xs[0] + " " + (u + " " + v);
        (xs[0] + " " + u) + " " + v;
        Unwords(xs) + " " + v;
      }
    }
  }

  lemma UnwordsThree(a: string, b: string, c: string)
    ensures Unwords([a, b, c]) == a + " " + b + " " + c
  {
    assert [a, b, c][1..] == [b, c];
    assert [b, c][1..] == [c];
    assert Unwords([b, c]) == b + " " + c;
  }

  lemma UnwordsFour(a: string, b: string, c: string, d: string)
    ensures Unwords([a, b, c, d]) == a + " " + b + " " + c + " " + d
  {
    assert [a, b, c, d][1..] == [b, c, d];
    UnwordsThree(b, c, d);
  }

  /** The line that opens the definition of the shell function `name`. */
  function FunctionHeader(name: string): string
  {
    "function " + name + "() {"
  }

  /** Value of `$k` inside a function called with `args`; unset parameters are empty. */
  function Positional(args: seq<string>, k: nat): string
  {
    if 1 <= k <= |args| then args[k - 1] else ""
  }

  predicate IsParamDigit(c: char)
  {
    '1' <= c <= '9'
  }

  /** The text of `s` with every `$1`..`$9` replaced by the corresponding argument. */
  function Expand(s: string, args: seq<string>): (r: string)
    decreases |s|
  {
    if |s| >= 2 && s[0] == '$' && IsParamDigit(s[1]) then
      Positional(args, s[1] as int - '0' as int) + Expand(s[2..], args)
    else if s == [] then ""
    else [s[0]] + Expand(s[1..], args)
  }

  /** Text without `$` passes through expansion unchanged. */
  lemma {:induction false} ExpandLiteral(lit: string, rest: string, args: seq<string>)
    requires '$' !in lit
    ensures Expand(lit + rest, args) == lit + Expand(rest, args)
  {
    if lit != [] {
      assert lit[0] in lit;
      assert (lit + rest)[0] == lit[0] != '$';
      assert Expand(lit + rest, args) == [lit[0]] + Expand((lit + rest)[1..], args);
      assert (lit + rest)[1..] == lit[1..] + rest;
      ExpandLiteral(lit[1..], rest, args);
      calc {
        Expand(lit + rest, args);
        [lit[0]] + (lit[1..] + Expand(rest, args));
        { assert lit == [lit[0]] + lit[1..]; }
        lit + Expand(rest, args);
      }
    } else {
      assert lit + rest == rest;
    }
  }

  /**
   * Expansion of a line with three positional references between `$`-free literals; a line with
   * fewer references is the case of empty trailing literals.
   */
  lemma ExpandThree(l1: string, d1: char, l2: string, d2: char, l3: string, d3: char, l4: string,
                    args: seq<string>)
    requires '$' !in l1 && '$' !in l2 && '$' !in l3 && '$' !in l4
    requires IsParamDigit(d1) && IsParamDigit(d2) && IsParamDigit(d3)
    ensures Expand(l1 + ['$', d1] + (l2 + ['$', d2] + (l3 + ['$', d3] + l4)), args)
         == l1 + Positional(args, d1 as int - '0' as int)
            + (l2 + Positional(args, d2 as int - '0' as int)
               + (l3 + Positional(args, d3 as int - '0' as int) + l4))
  {
    assert Expand(l4, args) == l4 by {
      ExpandLiteral(l4, [], args);
      assert l4 + [] == l4;
    }
    ExpandStep(l3, d3, l4, args);
    ExpandStep(l2, d2, l3 + ['$', d3] + l4, args);
    ExpandStep(l1, d1, l2 + ['$', d2] + (l3 + ['$', d3] + l4), args);
  }

  /** Expansion of a line with two positional references between `$`-free literals. */
  lemma ExpandTwo(l1: string, d1: char, l2: string, d2: char, l3: string, args: seq<string>)
    requires '$' !in l1 && '$' !in l2 && '$' !in l3
    requires IsParamDigit(d1) && IsParamDigit(d2)
    ensures Expand(l1 + ['$', d1] + (l2 + ['$', d2] + l3), args)
         == l1 + Positional(args, d1 as int - '0' as int) + (l2 + Positional(args, d2 as int - '0' as int) + l3)
  {
    assert Expand(l3, args) == l3 by {
      ExpandLiteral(l3, [], args);
      assert l3 + [] == l3;
    }
    ExpandStep(l2, d2, l3, args);
    ExpandStep(l1, d1, l2 + ['$', d2] + l3, args);
  }

  /** Literal text followed by `$d`: the literal stays, `$d` becomes the d-th argument. */
  lemma ExpandStep(lit: string, d: char, rest: string, args: seq<string>)
    requires '$' !in lit
    requires IsParamDigit(d)
    ensures Expand(lit + ['$', d] + rest, args)
         == lit + Positional(args, d as int - '0' as int) + Expand(rest, args)
  {
    var tail := ['$', d] + rest;
    assert lit + ['$', d] + rest == lit + tail;
    ExpandLiteral(lit, tail, args);
    assert tail[2..] == rest;
  }
}
