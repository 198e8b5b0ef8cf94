/** What the services print into a message, and what the loader's pattern reads
    back out of it. */
module AssetNames {
  import opened Wrappers
  import opened LoadEvents

  // ------------------------------------------------------------------------ repr

  /** Printability of a character beyond ASCII is the Unicode database's to say. */
  type Printability = char -> bool

  predicate Printable(known: Printability, c: char) {
    if c as int < 128 then ' ' <= c <= '~' else known(c)
  }

  function HexDigit(n: int): char
    requires 0 <= n < 16
  {
    if n < 10 then (n + '0' as int) as char else (n - 10 + 'a' as int) as char
  }

  function Hex(n: int, width: nat): (s: string)
    requires 0 <= n
    ensures |s| == width
    ensures '\'' !in s
  {
    if width == 0 then "" else Hex(n / 16, width - 1) + [HexDigit(n % 16)]
  }

  /** How `repr` writes one character between quotes of the given kind. */
  function Escaped(known: Printability, quote: char, c: char): (s: string)
    ensures (|s| == 1 && s[0] == c) || |s| >= 2
    ensures |s| == 1 <==> c != quote && c != '\\' && Printable(known, c)
    ensures quote == '\'' && c != '\'' ==> '\'' !in s
  {
    if c == quote || c == '\\' then ['\\', c]
    else if c == '\t' then "\\t"
    else if c == '\n' then "\\n"
    else if c == '\r' then "\\r"
    else if Printable(known, c) then [c]
    else if c as int < 0x100 then "\\x" + Hex(c as int, 2)
    else if c as int < 0x10000 then "\\u" + Hex(c as int, 4)
    else "\\U" + Hex(c as int, 8)
  }

  function EscapedAll(known: Printability, quote: char, s: string): string {
    if s == "" then "" else Escaped(known, quote, s[0]) + EscapedAll(known, quote, s[1..])
  }

  /** Single quotes, unless the text holds one and no double quote. */
  function QuoteFor(s: string): char {
    if '\'' in s && '"' !in s then '"' else '\''
  }

  function Repr(known: Printability, s: string): string {
    [QuoteFor(s)] + EscapedAll(known, QuoteFor(s), s) + [QuoteFor(s)]
  }

  // -------------------------------------------------------------------- messages

  /** Nothing in the text needs escaping. */
  predicate Untouched(known: Printability, quote: char, s: string) {
    forall c :: c in s ==> c != quote && c != '\\' && Printable(known, c)
  }

  /** From space to tilde, or beyond ASCII and known to be printable. */
  predicate Legible(known: Printability, c: char) {
    32 <= c as int <= 126 || (c as int >= 128 && known(c))
  }

  /** Names that print between single quotes as they are. */
  predicate Plain(known: Printability, name: string) {
    name != "" && forall c :: c in name ==> c != '\'' && c != '\\' && Legible(known, c)
  }

  lemma {:induction false} UntouchedIff(known: Printability, quote: char, s: string)
    ensures Untouched(known, quote, s) <==> forall c :: c in s ==> c != quote && c != '\\' && Legible(known, c)
  {
  }

  /** A name prints as it is between single quotes when it holds none, between double
      quotes when it holds a single and no double quote, as long as nothing in it needs
      escaping. */
  lemma {:induction false} PrintedAsIs(known: Printability, s: string)
    requires forall c :: c in s ==> c != '\\' && Legible(known, c)
    ensures '\'' !in s ==> Repr(known, s) == "'" + s + "'"
    ensures '\'' in s && '"' !in s ==> Repr(known, s) == "\"" + s + "\""
  {
    hide EscapedAll, Legible, Untouched;
    UntouchedIff(known, '\'', s);
    UntouchedIff(known, '"', s);
    EscapingLengthens(known, '\'', s);
    EscapingLengthens(known, '"', s);
  }

  lemma {:induction false} UntouchedCons(known: Printability, quote: char, s: string)
    requires s != ""
    ensures Untouched(known, quote, s) <==> |Escaped(known, quote, s[0])| == 1 && Untouched(known, quote, s[1..])
  {
    hide Escaped, Printable;
    assert s[0] in s;
    assert forall c :: c in s[1..] ==> c in s;
    assert forall c :: c in s ==> c == s[0] || c in s[1..];
  }

  lemma {:induction false} SameTail(c: char, a: string, b: string)
    ensures [c] + a == [c] + b <==> a == b
  {
    assert ([c] + a)[1..] == a && ([c] + b)[1..] == b;
  }

  lemma {:induction false} EscapingLengthens(known: Printability, quote: char, s: string)
    ensures |EscapedAll(known, quote, s)| >= |s|
    ensures EscapedAll(known, quote, s) == s <==> Untouched(known, quote, s)
    ensures |EscapedAll(known, quote, s)| == |s| ==> EscapedAll(known, quote, s) == s
  {
    hide Escaped, Printable, Untouched;
    if s != "" {
      var head, rest := Escaped(known, quote, s[0]), EscapedAll(known, quote, s[1..]);
      EscapingLengthens(known, quote, s[1..]);
      UntouchedCons(known, quote, s);
      assert s == [s[0]] + s[1..];
      if |head| == 1 {
        assert head == [s[0]];
        SameTail(s[0], rest, s[1..]);
      }
    } else {
      UntouchedEmpty(known, quote);
    }
  }

  lemma {:induction false} UntouchedEmpty(known: Printability, quote: char)
    ensures Untouched(known, quote, "")
  {
  }

  lemma {:induction false} NoQuoteAdded(known: Printability, s: string)
    requires '\'' !in s
    ensures '\'' !in EscapedAll(known, '\'', s)
  {
    if s != "" {
      assert s[0] in s;
      NoQuoteAdded(known, s[1..]);
    }
  }

  lemma {:induction false} RunUpTo(body: string, tail: string)
    requires '\'' !in body
    ensures QuotedRun(body + "'" + tail) == Some(body)
  {
    if body == "" {
      assert body + "'" + tail == "'" + tail;
    } else {
      assert body[0] in body;
      RunUpTo(body[1..], tail);
      assert (body + "'" + tail)[1..] == body[1..] + "'" + tail;
      assert body == [body[0]] + body[1..];
    }
  }

  /** What the pattern captures is never empty and never holds a quote. */
  lemma {:induction false} CapturedHasNoQuote(message: string)
    ensures AssetNamedIn(message).Some? ==> AssetNamedIn(message).value != "" && '\'' !in AssetNamedIn(message).value
  {
    if message != "" {
      CapturedHasNoQuote(message[1..]);
      if ASSET_QUOTED <= message {
        RunHasNoQuote(message[|ASSET_QUOTED|..]);
      }
    }
  }

  lemma {:induction false} RunHasNoQuote(s: string)
    ensures QuotedRun(s).Some? ==> '\'' !in QuotedRun(s).value
  {
    if s != "" && s[0] != '\'' {
      RunHasNoQuote(s[1..]);
    }
  }

  /** The pattern matches at `i` and captures `name`. */
  predicate MatchAt(m: string, i: nat, name: string) {
    i <= |m| && name != "" && '\'' !in name && ASSET_QUOTED + name + "'" <= m[i..]
  }

  lemma {:induction false} RunIsCapture(s: string, name: string)
    ensures QuotedRun(s) == Some(name) <==> '\'' !in name && name + "'" <= s
  {
    if s == "" {
    } else if s[0] == '\'' {
      if name != "" && name + "'" <= s {
        assert (name + "'")[0] == s[0];
        assert name[0] in name;
      }
    } else {
      if '\'' !in name && name + "'" <= s {
        assert (name + "'")[0] == s[0];
        assert name != "";
        assert (name + "'")[1..] == name[1..] + "'";
        assert name[1..] + "'" <= s[1..];
        RunIsCapture(s[1..], name[1..]);
        assert name == [s[0]] + name[1..];
      }
      if QuotedRun(s) == Some(name) {
        RunIsCapture(s[1..], name[1..]);
        assert name == [s[0]] + name[1..];
        assert s == [s[0]] + s[1..];
        assert name + "'" == [s[0]] + (name[1..] + "'");
      }
    }
  }

  lemma {:induction false} PrefixSplit(a: string, b: string, m: string)
    ensures a + b <= m <==> a <= m && b <= m[|a|..]
  {
    if a <= m && b <= m[|a|..] {
      assert m == a + m[|a|..];
    }
    if a + b <= m {
      assert a == (a + b)[..|a|] == m[..|a|];
      assert b == (a + b)[|a|..] == m[..|a + b|][|a|..];
      assert m[..|a + b|][|a|..] == m[|a|..][..|b|];
    }
  }

  lemma {:induction false} MatchHere(m: string, name: string)
    ensures MatchAt(m, 0, name)
      <==> ASSET_QUOTED <= m && QuotedRun(m[|ASSET_QUOTED|..]) == Some(name) && name != ""
  {
    assert m[0..] == m;
    assert ASSET_QUOTED + name + "'" == ASSET_QUOTED + (name + "'");
    PrefixSplit(ASSET_QUOTED, name + "'", m);
    if ASSET_QUOTED <= m {
      RunIsCapture(m[|ASSET_QUOTED|..], name);
    }
  }

  /** `search` finds the leftmost match, and nothing exactly when there is none. */
  lemma {:induction false} PatternIsLeftmost(m: string)
    ensures AssetNamedIn(m).Some? ==>
      exists i: nat :: MatchAt(m, i, AssetNamedIn(m).value) && forall j: nat, name :: j < i ==> !MatchAt(m, j, name)
    ensures AssetNamedIn(m).None? ==> forall i: nat, name :: !MatchAt(m, i, name)
  {
    hide AssetNamedIn;
    SearchStep(m);
    if m == "" {
      forall name
        ensures !MatchAt(m, 0, name)
      {
        MatchHere(m, name);
      }
    } else {
      forall name
        ensures MatchAt(m, 0, name)
          <==> ASSET_QUOTED <= m && QuotedRun(m[|ASSET_QUOTED|..]) == Some(name) && name != ""
      {
        MatchHere(m, name);
      }
      if !(ASSET_QUOTED <= m && Truthy(QuotedRun(m[|ASSET_QUOTED|..]))) {
        PatternIsLeftmost(m[1..]);
        forall i: nat, name
          ensures i > 0 ==> (MatchAt(m, i, name) <==> MatchAt(m[1..], i - 1, name))
        {
          if 0 < i <= |m| {
            assert m[i..] == m[1..][i - 1..];
          }
        }
        if AssetNamedIn(m).Some? {
          var i: nat :| MatchAt(m[1..], i, AssetNamedIn(m).value)
                        && forall j: nat, name :: j < i ==> !MatchAt(m[1..], j, name);
          assert MatchAt(m, i + 1, AssetNamedIn(m).value);
        }
      }
    }
  }

  lemma {:induction false} SearchStep(m: string)
    ensures AssetNamedIn(m) == if m == "" then None
                               else if ASSET_QUOTED <= m && Truthy(QuotedRun(m[|ASSET_QUOTED|..]))
                               then QuotedRun(m[|ASSET_QUOTED|..]) else AssetNamedIn(m[1..])
  {
  }

  /** Words without a quote before the asset are passed over. */
  lemma {:induction false} LeadPassedOver(lead: string, rest: string)
    requires '\'' !in lead && |rest| >= |ASSET_QUOTED| && '\'' !in rest[..|ASSET_QUOTED| - 1]
    ensures AssetNamedIn(lead + rest) == AssetNamedIn(rest)
  {
    if lead == "" {
      assert lead + rest == rest;
    } else {
      var m := lead + rest;
      assert m[1..] == lead[1..] + rest;
      LeadPassedOver(lead[1..], rest);
      NoQuoteBefore(lead, rest);
    }
  }

  /** So the pattern, which ends in a quote, cannot match there. */
  lemma {:induction false} NoQuoteBefore(lead: string, rest: string)
    requires '\'' !in lead && lead != "" && |rest| >= |ASSET_QUOTED| && '\'' !in rest[..|ASSET_QUOTED| - 1]
    ensures !(ASSET_QUOTED <= lead + rest)
  {
    var m, last := lead + rest, |ASSET_QUOTED| - 1;
    assert ASSET_QUOTED[last] == '\'';
    if last < |lead| {
      assert m[last] == lead[last] && lead[last] in lead;
    } else {
      assert m[last] == rest[last - |lead|] && rest[last - |lead|] in rest[..last];
    }
  }

  lemma {:induction false} PatternAtOnce(body: string, tail: string)
    requires '\'' !in body && body != ""
    ensures AssetNamedIn(ASSET_QUOTED + body + "'" + tail) == Some(body)
  {
    var m := ASSET_QUOTED + body + "'" + tail;
    RunUpTo(body, tail);
    assert m[|ASSET_QUOTED|..] == body + "'" + tail;
  }

  const ASSET_WORD := "asset "

  /** The loader recovers exactly the name that was printed if and only if the
      name is not empty and holds no single quote, no backslash and nothing
      unprintable. */
  lemma {:induction false} PrintedNameRecoveredIff(known: Printability, lead: string, name: string, tail: string)
    requires '\'' !in lead
    ensures AssetNamedIn(lead + ASSET_WORD + Repr(known, name) + tail) == Some(name) <==> Plain(known, name)
  {
    hide AssetNamedIn, Escaped, Printable, Legible, EscapedAll;
    var m := lead + ASSET_WORD + Repr(known, name) + tail;
    UntouchedIff(known, '\'', name);
    CapturedHasNoQuote(m);
    if '\'' !in name && name != "" {
      var body := EscapedAll(known, '\'', name);
      NoQuoteAdded(known, name);
      EscapingLengthens(known, '\'', name);
      assert ASSET_WORD + "'" == ASSET_QUOTED;
      var rest := ASSET_QUOTED + body + "'" + tail;
      assert m == lead + rest;
      assert rest[..|ASSET_QUOTED| - 1] == ASSET_WORD;
      LeadPassedOver(lead, rest);
      PatternAtOnce(body, tail);
    }
  }
}
