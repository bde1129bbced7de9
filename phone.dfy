/** Phone-number normalisation and the account key derived from it
    (`normalizePhone` and the `h3_db_` key in App.tsx). */
module Phone {

  /** JavaScript's `\s`: the ECMAScript WhiteSpace and LineTerminator characters. */
  predicate IsWhitespace(c: char)
    ensures IsWhitespace(c) ==> c != '-' && c != '+' && !('0' <= c <= '9')
  {
    || c == ' '
    || '\t' <= c <= '\r'
    || c == '\U{00A0}' || c == '\U{1680}'
    || '\U{2000}' <= c <= '\U{200A}'
    || c == '\U{2028}' || c == '\U{2029}' || c == '\U{202F}' || c == '\U{205F}'
    || c == '\U{3000}' || c == '\U{FEFF}'
  }

  /** The characters the normalisation removes. */
  predicate IsSeparator(c: char)
  {
    IsWhitespace(c) || c == '-'
  }

  predicate NoSeparators(s: string)
  {
    forall i :: 0 <= i < |s| ==> !IsSeparator(s[i])
  }

  /** Number of occurrences of `c` in `s`. */
  function Count(s: string, c: char): nat
  {
    if s == [] then 0 else (if s[0] == c then 1 else 0) + Count(s[1..], c)
  }

  /** `p.replace(/\s+/g, '')`. */
  function RemoveWhitespace(s: string): (r: string)
    ensures |r| <= |s|
    ensures forall i :: 0 <= i < |r| ==> !IsWhitespace(r[i])
    ensures forall i :: 0 <= i < |r| ==> r[i] in s
  {
    if s == [] then []
    else if IsWhitespace(s[0]) then RemoveWhitespace(s[1..])
    else [s[0]] + RemoveWhitespace(s[1..])
  }

  /** The whitespace removal drops every whitespace character and keeps
      every other character as often as it occurred. */
  lemma {:induction false} RemoveWhitespaceCount(s: string, c: char)
    ensures Count(RemoveWhitespace(s), c) == if IsWhitespace(c) then 0 else Count(s, c)
  {
    if s != [] {
      RemoveWhitespaceCount(s[1..], c);
      if !IsWhitespace(s[0]) {
        CountConcat([s[0]], RemoveWhitespace(s[1..]), c);
      }
    }
  }

  /** `.replace(/-/g, '')`. */
  function RemoveHyphens(s: string): (r: string)
    ensures |r| <= |s|
    ensures forall i :: 0 <= i < |r| ==> r[i] != '-'
    ensures forall i :: 0 <= i < |r| ==> r[i] in s
  {
    if s == [] then []
    else if s[0] == '-' then RemoveHyphens(s[1..])
    else [s[0]] + RemoveHyphens(s[1..])
  }

  /** The hyphen removal drops every `-` and keeps every other character as
      often as it occurred. */
  lemma {:induction false} RemoveHyphensCount(s: string, c: char)
    ensures Count(RemoveHyphens(s), c) == if c == '-' then 0 else Count(s, c)
  {
    if s != [] {
      RemoveHyphensCount(s[1..], c);
      if s[0] != '-' {
        CountConcat([s[0]], RemoveHyphens(s[1..]), c);
      }
    }
  }

  /** `normalizePhone` (App.tsx): whitespace removed first, then hyphens. */
  function Normalize(p: string): (r: string)
    ensures |r| <= |p|
    ensures NoSeparators(r)
  {
    RemoveHyphens(RemoveWhitespace(p))
  }

  /** Prefix of every per-account record key. */
  const DbPrefix: string := "h3_db_"

  /** Storage key of the account record for a raw phone string. */
  function DbKey(rawPhone: string): (key: string)
    ensures |DbPrefix| <= |key| && key[..|DbPrefix|] == DbPrefix
    ensures NoSeparators(key[|DbPrefix|..])
  {
    DbPrefix + Normalize(rawPhone)
  }

  /** Reference definition: a single pass that drops every separator. */
  function StripSeparators(s: string): string
  {
    if s == [] then []
    else if IsSeparator(s[0]) then StripSeparators(s[1..])
    else [s[0]] + StripSeparators(s[1..])
  }

  lemma {:induction false} RemoveHyphensFixesWhitespaceFree(s: string)
    ensures RemoveHyphens(RemoveWhitespace(s)) == StripSeparators(s)
  {
    if s != [] {
      RemoveHyphensFixesWhitespaceFree(s[1..]);
      if !IsWhitespace(s[0]) {
        var t := RemoveWhitespace(s[1..]);
        assert RemoveWhitespace(s) == [s[0]] + t;
        assert ([s[0]] + t)[1..] == t;
      }
    }
  }

  /** The two replacements together drop exactly the separators, keeping
      every other character in order. */
  lemma NormalizeIsStrip(p: string)
    ensures Normalize(p) == StripSeparators(p)
  {
    RemoveHyphensFixesWhitespaceFree(p);
  }

  lemma {:induction false} StripConcat(a: string, b: string)
    ensures StripSeparators(a + b) == StripSeparators(a) + StripSeparators(b)
  {
    if a == [] {
      assert a + b == b;
    } else {
      assert (a + b)[1..] == a[1..] + b;
      StripConcat(a[1..], b);
    }
  }

  lemma {:induction false} StripFixpoint(s: string)
    ensures StripSeparators(s) == s <==> NoSeparators(s)
  {
    if s != [] {
      StripFixpoint(s[1..]);
      if IsSeparator(s[0]) {
        StripShrinks(s[1..]);
      }
    }
  }

  lemma {:induction false} StripShrinks(s: string)
    ensures |StripSeparators(s)| <= |s|
  {
    if s != [] {
      StripShrinks(s[1..]);
    }
  }

  lemma {:induction false} StripCount(s: string, c: char)
    ensures Count(StripSeparators(s), c) == if IsSeparator(c) then 0 else Count(s, c)
  {
    if s != [] {
      StripCount(s[1..], c);
      if !IsSeparator(s[0]) {
        CountConcat([s[0]], StripSeparators(s[1..]), c);
      }
    }
  }

  lemma {:induction false} CountConcat(a: string, b: string, c: char)
    ensures Count(a + b, c) == Count(a, c) + Count(b, c)
  {
    if a == [] {
      assert a + b == b;
    } else {
      assert (a + b)[1..] == a[1..] + b;
      CountConcat(a[1..], b, c);
    }
  }

  /** Normalisation works piece by piece. */
  lemma NormalizeConcat(a: string, b: string)
    ensures Normalize(a + b) == Normalize(a) + Normalize(b)
  {
    NormalizeIsStrip(a + b);
    NormalizeIsStrip(a);
    NormalizeIsStrip(b);
    StripConcat(a, b);
  }

  /** A string is its own normal form exactly when it holds no whitespace
      and no hyphen. */
  lemma NormalizeFixpoint(p: string)
    ensures Normalize(p) == p <==> NoSeparators(p)
  {
    NormalizeIsStrip(p);
    StripFixpoint(p);
  }

  /** Normalising twice is normalising once. */
  lemma NormalizeIdempotent(p: string)
    ensures Normalize(Normalize(p)) == Normalize(p)
  {
    NormalizeFixpoint(Normalize(p));
  }

  /** Every character other than whitespace and `-` (the `+` of an
      international prefix, letters, punctuation) survives as often as it
      occurred; separators do not survive at all. */
  lemma NormalizeCount(p: string, c: char)
    ensures Count(Normalize(p), c) == if IsSeparator(c) then 0 else Count(p, c)
  {
    NormalizeIsStrip(p);
    StripCount(p, c);
  }

  /** Inserting a space or hyphen anywhere does not change the normal form. */
  lemma NormalizeIgnoresSeparator(a: string, c: char, b: string)
    requires IsSeparator(c)
    ensures Normalize(a + [c] + b) == Normalize(a + b)
  {
    NormalizeConcat(a + [c], b);
    NormalizeConcat(a, [c]);
    NormalizeConcat(a, b);
    assert Normalize([c]) == [] by {
      NormalizeIsStrip([c]);
      assert StripSeparators([c]) == StripSeparators([c][1..]);
    }
  }

  /** Two raw phones share an account record exactly when their normal
      forms are equal. */
  lemma SameKeyIffSameNormalForm(p: string, q: string)
    ensures DbKey(p) == DbKey(q) <==> Normalize(p) == Normalize(q)
  {
    if DbKey(p) == DbKey(q) {
      assert Normalize(p) == DbKey(p)[|DbPrefix|..];
      assert Normalize(q) == DbKey(q)[|DbPrefix|..];
    }
  }

  /** The key only keeps the normal form: a `+` is kept, so "+1 555-0100"
      and "1 555-0100" are different accounts although their digits agree. */
  lemma PlusSignDistinguishesAccounts()
    ensures DbKey("+1 555-0100") != DbKey("1 555-0100")
  {
    NormalizeCount("+1 555-0100", '+');
    NormalizeCount("1 555-0100", '+');
    assert Count("1 555-0100", '+') == 0;
    assert Count("+1 555-0100", '+') == 1;
  }
}
