/**
 * Chat control sequences: a section sign followed by a colour digit
 * (`0`-`9`, `a`-`f`) or a format letter (`k`, `l`, `m`, `n`, `o`, `r`).
 * Strings are sequences of runes.
 *
 * The regular-expression replacements are two-rune patterns, so Go's
 * leftmost, non-overlapping `ReplaceAllString` is the left-to-right scan
 * `Rewrite`: at each position either the lead rune and a code rune match
 * and are replaced, or the rune is kept and the scan moves on by one.
 */
module Chat {
  import opened Opt

  const Section: char := '§'

  const Black: string := "\U{A7}0"
  const White: string := "§f"
  const Random: string := "§k"
  const Reset: string := "§r"

  /** `[0-9a-f]`, runes 48..57 and 97..102. */
  predicate IsColorCode(c: char) { '0' <= c <= '9' || 'a' <= c <= 'f' }

  /** `[klmnor]`, runes 107, 108, 109, 110, 111 and 114. */
  predicate IsFormatCode(c: char) { c == 'k' || c == 'l' || c == 'm' || c == 'n' || c == 'o' || c == 'r' }

  /** Which code runes a pattern accepts after its lead rune. */
  datatype Codes = Colors | Formats | Both

  predicate InCodes(codes: Codes, c: char)
  {
    match codes
    case Colors => IsColorCode(c)
    case Formats => IsFormatCode(c)
    case Both => IsColorCode(c) || IsFormatCode(c)
  }

  /** Exactly two runes, the second a colour digit (the first is not looked at). */
  predicate IsColor(s: string)
  {
    if |s| != 2 then false else IsColorCode(s[1])
  }

  /** Exactly two runes, the second a format letter (the first is not looked at). */
  predicate IsFormat(s: string)
  {
    if |s| != 2 then false else IsFormatCode(s[1])
  }

  /** A control sequence starts at `i`. */
  predicate CodeAt(s: string, lead: char, codes: Codes, i: int)
  {
    0 <= i && i + 1 < |s| && s[i] == lead && InCodes(codes, s[i + 1])
  }

  ghost predicate HasCode(s: string, lead: char, codes: Codes)
  {
    exists i :: CodeAt(s, lead, codes, i)
  }

  /**
   * Replaces every `lead` + code match, scanning left to right: with
   * nothing when `to` is `None`, with `to` + code otherwise.
   */
  function Rewrite(s: string, lead: char, codes: Codes, to: Option<char>): (r: string)
    decreases |s|
  {
    if s == [] then []
    else if CodeAt(s, lead, codes, 0) then
      (if to.Some? then [to.value, s[1]] else []) + Rewrite(s[2..], lead, codes, to)
    else
      [s[0]] + Rewrite(s[1..], lead, codes, to)
  }

  function StripColor(s: string): (r: string) { Rewrite(s, Section, Colors, None) }

  function StripFormat(s: string): (r: string) { Rewrite(s, Section, Formats, None) }

  function Strip(s: string): (r: string) { Rewrite(s, Section, Both, None) }

  /**
   * `Translate(s, pat)` for a pattern that is one literal rune: each
   * `pat` + code becomes `§` + code.
   */
  function Translate(s: string, pat: char): (r: string) { Rewrite(s, pat, Both, Some(Section)) }

  /** No string is both a colour and a format sequence. */
  lemma ColorXorFormat(s: string)
    ensures !(IsColor(s) && IsFormat(s))
  {
  }

  /** The test tables: every `§` + digit is a colour and not a format, every `§` + format letter the reverse. */
  lemma CodeTables(c: char)
    ensures IsColor([Section, c]) <==> IsColorCode(c)
    ensures IsFormat([Section, c]) <==> IsFormatCode(c)
    ensures !IsColor("") && !IsFormat("")
    ensures IsColor(Black) && IsColor(White) && IsFormat(Random) && IsFormat(Reset)
  {
  }

  /** Stripping never lengthens the text. */
  lemma {:induction false} StripNoLonger(s: string, codes: Codes)
    ensures |Rewrite(s, Section, codes, None)| <= |s|
    decreases |s|
  {
    if s != [] {
      if CodeAt(s, Section, codes, 0) {
        StripNoLonger(s[2..], codes);
      } else {
        StripNoLonger(s[1..], codes);
      }
    }
  }

  /** Text without a control sequence passes through unchanged. */
  lemma {:induction false} RewriteNoCode(s: string, lead: char, codes: Codes, to: Option<char>)
    requires !HasCode(s, lead, codes)
    ensures Rewrite(s, lead, codes, to) == s
    decreases |s|
  {
    if s != [] {
      assert !CodeAt(s, lead, codes, 0);
      forall i ensures !CodeAt(s[1..], lead, codes, i) {
        assert CodeAt(s[1..], lead, codes, i) ==> CodeAt(s, lead, codes, i + 1);
      }
      RewriteNoCode(s[1..], lead, codes, to);
    }
  }

  /** Text with a control sequence comes out shorter. */
  lemma {:induction false} StripShortens(s: string, codes: Codes, i: int)
    requires CodeAt(s, Section, codes, i)
    ensures |Rewrite(s, Section, codes, None)| < |s|
    decreases |s|
  {
    if CodeAt(s, Section, codes, 0) {
      StripNoLonger(s[2..], codes);
    } else {
      assert i > 0;
      assert CodeAt(s[1..], Section, codes, i - 1);
      StripShortens(s[1..], codes, i - 1);
    }
  }

  /** Stripping changes the text exactly when it holds a control sequence of the kind stripped. */
  lemma StripChangesIffCode(s: string, codes: Codes)
    ensures Rewrite(s, Section, codes, None) == s <==> !HasCode(s, Section, codes)
  {
    if HasCode(s, Section, codes) {
      var i :| CodeAt(s, Section, codes, i);
      StripShortens(s, codes, i);
    } else {
      RewriteNoCode(s, Section, codes, None);
    }
  }

  /** One pass is not always enough: removing the black code from section, section, zero, zero joins a new black code. */
  lemma StripColorCanLeaveCode()
    ensures StripColor("\U{A7}\U{A7}00") == "\U{A7}0" && HasCode(StripColor("\U{A7}\U{A7}00"), Section, Colors)
  {
    assert CodeAt("\U{A7}0", Section, Colors, 0);
  }

  /** Every lead rune in `a` is followed, inside `a`, by a rune that is not a code. */
  predicate PassesThrough(a: string, lead: char, codes: Codes)
    decreases |a|
  {
    if a == [] then true
    else if a[0] == lead then |a| >= 2 && !InCodes(codes, a[1]) && PassesThrough(a[1..], lead, codes)
    else PassesThrough(a[1..], lead, codes)
  }

  /** Such a piece comes out unchanged, whatever follows it. */
  lemma {:induction false} RewritePlain(a: string, b: string, lead: char, codes: Codes, to: Option<char>)
    requires PassesThrough(a, lead, codes)
    ensures Rewrite(a + b, lead, codes, to) == a + Rewrite(b, lead, codes, to)
    decreases |a|
  {
    if a != [] {
      var t := a[1..] + b;
      assert a + b == [a[0]] + t;
      assert !CodeAt(a + b, lead, codes, 0) by {
        if a[0] == lead { assert (a + b)[1] == a[1]; }
      }
      assert Rewrite(a + b, lead, codes, to) == [a[0]] + Rewrite(t, lead, codes, to);
      RewritePlain(a[1..], b, lead, codes, to);
      var r := Rewrite(b, lead, codes, to);
      assert [a[0]] + (a[1..] + r) == a + r;
    } else {
      assert a + b == b;
    }
  }

  /** A control sequence at the front is replaced, whatever follows. */
  lemma RewriteCode(c: char, b: string, lead: char, codes: Codes, to: Option<char>)
    requires InCodes(codes, c)
    ensures Rewrite([lead, c] + b, lead, codes, to) == (if to.Some? then [to.value, c] else []) + Rewrite(b, lead, codes, to)
  {
    assert ([lead, c] + b)[2..] == b;
  }

  /** The text after the last colour code of the strip example. */
  lemma StripGreen()
    ensures Rewrite([Section, 'a'] + "Green", Section, Colors, None) == "Green"
  {
    RewriteCode('a', "Green", Section, Colors, None);
    RewritePlain("Green", "", Section, Colors, None);
    assert "Green" + "" == "Green";
  }

  lemma StripExamplePieces()
    ensures "§cRed§r and §aGreen" == [Section, 'c'] + ("Red§r and " + ([Section, 'a'] + "Green"))
    ensures "Red§r and " + "Green" == "Red§r and Green"
  {
  }

  /** `§r` is not a colour code, so the middle of the strip example passes through. */
  lemma StripExampleMiddle()
    ensures PassesThrough("Red§r and ", Section, Colors)
  {
  }

  lemma StripExample()
    ensures StripColor("§cRed§r and §aGreen") == "Red§r and Green"
  {
    var rest := [Section, 'a'] + "Green";
    StripExamplePieces();
    StripExampleMiddle();
    RewriteCode('c', "Red§r and " + rest, Section, Colors, None);
    RewritePlain("Red§r and ", rest, Section, Colors, None);
    StripGreen();
  }

  /** Translating with `§` itself changes nothing. */
  lemma {:induction false} TranslateSectionIdentity(s: string)
    ensures Translate(s, Section) == s
    decreases |s|
  {
    if s != [] {
      TranslateSectionIdentity(s[1..]);
      if CodeAt(s, Section, Both, 0) {
        TranslateSectionIdentity(s[2..]);
        assert s == [s[0], s[1]] + s[2..];
      }
    }
  }

  /**
   * For text without section signs, translating and then stripping every
   * control sequence is the same as deleting the alternate-character codes.
   */
  lemma {:induction false} StripAfterTranslate(s: string, pat: char)
    requires Section !in s
    ensures Strip(Translate(s, pat)) == Rewrite(s, pat, Both, None)
    decreases |s|
  {
    if s != [] {
      if CodeAt(s, pat, Both, 0) {
        StripAfterTranslate(s[2..], pat);
        var t := Translate(s[2..], pat);
        assert Translate(s, pat) == [Section, s[1]] + t;
        assert CodeAt([Section, s[1]] + t, Section, Both, 0);
        assert ([Section, s[1]] + t)[2..] == t;
      } else {
        StripAfterTranslate(s[1..], pat);
        var t := Translate(s[1..], pat);
        assert Translate(s, pat) == [s[0]] + t;
        assert s[0] != Section;
        assert ([s[0]] + t)[1..] == t;
      }
    }
  }

  /** The text after `Hola ` in the translate example. */
  lemma TranslateMundo()
    ensures Translate(['&', 'r'] + (['&', 'c'] + "mundo"), '&') == "§r§cmundo"
  {
    var codes, to := Both, Some(Section);
    RewritePlain("mundo", "", '&', codes, to);
    assert "mundo" + "" == "mundo";
    var m := Rewrite("mundo", '&', codes, to);
    assert m == "mundo";
    RewriteCode('c', "mundo", '&', codes, to);
    var c := Rewrite(['&', 'c'] + "mundo", '&', codes, to);
    assert c == [Section, 'c'] + m;
    RewriteCode('r', ['&', 'c'] + "mundo", '&', codes, to);
    assert Rewrite(['&', 'r'] + (['&', 'c'] + "mundo"), '&', codes, to) == [Section, 'r'] + c;
    assert [Section, 'r'] + ([Section, 'c'] + "mundo") == "§r§cmundo";
  }

  lemma TranslateExamplePieces()
    ensures "&lHola &r&cmundo" == ['&', 'l'] + ("Hola " + (['&', 'r'] + (['&', 'c'] + "mundo")))
    ensures "§l" + ("Hola " + "§r§cmundo") == "§lHola §r§cmundo"
  {
  }

  lemma TranslateExample()
    ensures Translate("&lHola &r&cmundo", '&') == "§lHola §r§cmundo"
  {
    var codes, to := Both, Some(Section);
    var rest := ['&', 'r'] + (['&', 'c'] + "mundo");
    TranslateExamplePieces();
    RewriteCode('l', "Hola " + rest, '&', codes, to);
    RewritePlain("Hola ", rest, '&', codes, to);
    TranslateMundo();
  }
}
