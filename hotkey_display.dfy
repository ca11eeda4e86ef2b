/**
 * `formatHotkeyForDisplay` of the hotkey storage: the chain of
 * case-insensitive replacements that turns a stored shortcut such as
 * `cmd+shift+a` into the text the settings screen shows.
 */
module HotkeyDisplay {
  import opened Text
  import opened Hotkeys
  import opened Seqs

  /** The words the display form replaces, case-insensitively. */
  const Keywords: seq<string> := ["cmd", "ctrl", "alt", "shift", "meta", "backslash", "space", "enter", "tab", "escape"]

  /** `formatHotkeyForDisplay`: the chain of replacements, in order. */
  function FormatForDisplay(hotkey: string): string {
    NameKeys(ReplaceAll(NameModifiers(hotkey), "+", " + "))
  }

  /** The first five replacements of the chain: the modifier names. */
  function NameModifiers(s: string): string {
    var s := ReplaceAll(s, "cmd", "⌘");
    var s := ReplaceAll(s, "ctrl", "Ctrl");
    var s := ReplaceAll(s, "alt", "Alt");
    var s := ReplaceAll(s, "shift", "Shift");
    ReplaceAll(s, "meta", "Meta")
  }

  /** The last five replacements of the chain, after the `+` step: the key names. */
  function NameKeys(s: string): string {
    var s := ReplaceAll(s, "backslash", "\\");
    var s := ReplaceAll(s, "space", "Space");
    var s := ReplaceAll(s, "enter", "Enter");
    var s := ReplaceAll(s, "tab", "Tab");
    ReplaceAll(s, "escape", "Esc")
  }

  /** None of the keywords occurs in `t`, compared case-insensitively. */
  predicate KeywordFree(t: string) {
    forall k :: 0 <= k < |Keywords| ==> !ContainsIgnoreCase(t, Keywords[k])
  }

  /** A hotkey with no `+` and none of the keywords is shown as it is. */
  lemma FormatPlain(hotkey: string)
    requires '+' !in hotkey && KeywordFree(hotkey)
    ensures FormatForDisplay(hotkey) == hotkey
  {
    var k := Keywords;
    assert !ContainsIgnoreCase(hotkey, k[0]) && !ContainsIgnoreCase(hotkey, k[1]) && !ContainsIgnoreCase(hotkey, k[2]);
    assert !ContainsIgnoreCase(hotkey, k[3]) && !ContainsIgnoreCase(hotkey, k[4]) && !ContainsIgnoreCase(hotkey, k[5]);
    assert !ContainsIgnoreCase(hotkey, k[6]) && !ContainsIgnoreCase(hotkey, k[7]) && !ContainsIgnoreCase(hotkey, k[8]);
    assert !ContainsIgnoreCase(hotkey, k[9]);
    PlusAbsent(hotkey);
    ReplaceAbsent(hotkey, "cmd", "⌘");
    ReplaceAbsent(hotkey, "ctrl", "Ctrl");
    ReplaceAbsent(hotkey, "alt", "Alt");
    ReplaceAbsent(hotkey, "shift", "Shift");
    ReplaceAbsent(hotkey, "meta", "Meta");
    ReplaceAbsent(hotkey, "+", " + ");
    ReplaceAbsent(hotkey, "backslash", "\\");
    ReplaceAbsent(hotkey, "space", "Space");
    ReplaceAbsent(hotkey, "enter", "Enter");
    ReplaceAbsent(hotkey, "tab", "Tab");
    ReplaceAbsent(hotkey, "escape", "Esc");
  }

  /** Text without a `+` holds no `+` ignoring case either. */
  lemma {:induction false} PlusAbsent(s: string)
    requires '+' !in s
    ensures !ContainsIgnoreCase(s, "+")
    decreases |s|
  {
    if s != [] {
      assert LowerStr(s[..1])[0] == Lower(s[0]);
      assert s[1..] <= s[1..] && forall i :: 0 <= i < |s[1..]| ==> s[1..][i] == s[i + 1];
      PlusAbsent(s[1..]);
    }
  }

  /** What the chain makes of a modifier. */
  function Shown(m: string): string {
    if m == "cmd" then "⌘"
    else if m == "ctrl" then "Ctrl"
    else if m == "alt" then "Alt"
    else if m == "shift" then "Shift"
    else "Meta"
  }

  /**
   * A modifier followed by `+`-separated keys that contain no keyword shows
   * its display name, then the keys as they are, separated by ` + `.
   */
  lemma {:induction false} FormatModifierKeys(m: string, keys: seq<string>)
    requires m in Modifiers && |keys| >= 1
    requires forall i :: 0 <= i < |keys| ==> '+' !in keys[i] && KeywordFree(keys[i])
    ensures FormatForDisplay(m + "+" + Join(keys, '+')) == Shown(m) + " + " + JoinWith(keys, " + ")
  {
    var rest := Join(keys, '+');
    NameModifiersHead(m, keys);
    ModifierShown(m);
    var named := Shown(m) + "+" + rest;
    SpacePlus(named);
    assert named == Shown(m) + ['+'] + rest;
    SplitPrefix(Shown(m), rest, '+');
    SplitJoin(keys, '+');
    var pieces := [Shown(m)] + keys;
    assert pieces[1..] == keys;
    assert JoinWith(pieces, " + ") == Shown(m) + " + " + JoinWith(keys, " + ");
    NameKeysHead(Shown(m), keys);
  }

  /** The display names of the modifiers, which the later steps leave alone. */
  lemma {:induction false} ModifierShown(m: string)
    requires m in Modifiers
    ensures NameModifiers(m) == Shown(m) && NameKeys(Shown(m)) == Shown(m) && '+' !in Shown(m)
  {
    ModifierNamed(m);
    ShownKept(m);
    ShownNoPlus(m);
  }

  lemma {:induction false} ShownNoPlus(m: string)
    requires m in Modifiers
    ensures '+' !in Shown(m)
  {
  }

  lemma {:induction false} ModifierNamed(m: string)
    requires m in Modifiers
    ensures NameModifiers(m) == Shown(m)
  {
    var n := Shown(m);
    if m == "cmd" {
      ShownCmd(m, n);
    } else if m == "ctrl" {
      ShownCtrl(m, n);
    } else if m == "alt" {
      ShownAlt(m, n);
    } else if m == "shift" {
      ShownShiftFront(m);
      ShownShiftBack(m, n);
    } else {
      ShownMeta(m, n);
    }
  }

  lemma {:induction false} ShownKept(m: string)
    requires m in Modifiers
    ensures NameKeys(Shown(m)) == Shown(m)
  {
    var n := Shown(m);
    if m == "cmd" {
      ShownCmd(m, n);
    } else if m == "shift" {
      ShiftKept(n);
    } else {
      ShortNameKept(n);
    }
  }

  // The modifier facts below name their strings by parameters, so that the
  // verifier works through each replacement once instead of evaluating the
  // whole chain on constants.

  lemma {:induction false} ShownCmd(m: string, n: string)
    requires m == "cmd" && n == "⌘"
    ensures NameModifiers(m) == n && NameKeys(n) == n
  {
    ReplaceWhole(m, "cmd", n);
  }

  lemma {:induction false} ShownCtrl(m: string, n: string)
    requires m == "ctrl" && n == "Ctrl"
    ensures NameModifiers(m) == n
  {
    Keep(m, "cmd", "⌘", 1);
    ReplaceWhole(m, "ctrl", n);
    Keep(n, "alt", "Alt", 0);
    Keep(n, "meta", "Meta", 0);
  }

  lemma {:induction false} ShownAlt(m: string, n: string)
    requires m == "alt" && n == "Alt"
    ensures NameModifiers(m) == n
  {
    Keep(m, "cmd", "⌘", 0);
    ReplaceWhole(m, "alt", n);
  }

  lemma {:induction false} ShownShiftFront(m: string)
    requires m == "shift"
    ensures ReplaceAll(ReplaceAll(ReplaceAll(m, "cmd", "⌘"), "ctrl", "Ctrl"), "alt", "Alt") == m
  {
    Keep(m, "cmd", "⌘", 0);
    Keep(m, "ctrl", "Ctrl", 0);
    Keep(m, "alt", "Alt", 0);
  }

  lemma {:induction false} ShownShiftBack(m: string, n: string)
    requires m == "shift" && n == "Shift"
    ensures ReplaceAll(ReplaceAll(m, "shift", n), "meta", "Meta") == n
  {
    ReplaceWhole(m, "shift", n);
    Keep(n, "meta", "Meta", 0);
  }

  lemma {:induction false} ShownMeta(m: string, n: string)
    requires m == "meta" && n == "Meta"
    ensures NameModifiers(m) == n
  {
    Keep(m, "cmd", "⌘", 0);
    Keep(m, "ctrl", "Ctrl", 0);
    Keep(m, "alt", "Alt", 1);
    ReplaceWhole(m, "meta", n);
  }

  /** A display name of at most four letters without `t`, `a` or `b` passes the key steps. */
  lemma {:induction false} ShortNameKept(n: string)
    requires n in ["Ctrl", "Alt", "Meta"]
    ensures NameKeys(n) == n
  {
    if n == "Ctrl" {
      Keep(n, "tab", "Tab", 1);
    } else {
      Keep(n, "tab", "Tab", 2);
    }
  }

  lemma {:induction false} ShiftKept(n: string)
    requires n == "Shift"
    ensures NameKeys(n) == n
  {
    Keep(n, "space", "Space", 1);
    Keep(n, "enter", "Enter", 0);
    Keep(n, "tab", "Tab", 1);
  }

  /** A replacement whose pattern has a letter `s` lacks leaves `s` alone. */
  lemma Keep(s: string, pat: string, rep: string, k: nat)
    requires k < |pat| && forall i :: 0 <= i < |s| ==> Lower(s[i]) != Lower(pat[k])
    ensures ReplaceAll(s, pat, rep) == s
  {
    LetterMissing(s, pat, k);
    ReplaceAbsent(s, pat, rep);
  }

  /** The modifier steps leave keys without keywords alone. */
  lemma {:induction false} NameModifiersHead(x: string, keys: seq<string>)
    requires |keys| >= 1 && forall i :: 0 <= i < |keys| ==> KeywordFree(keys[i])
    ensures NameModifiers(x + "+" + Join(keys, '+')) == NameModifiers(x) + "+" + Join(keys, '+')
  {
    var rest := Join(keys, '+');
    PlusKept(keys, "cmd", "⌘");
    PlusKept(keys, "ctrl", "Ctrl");
    PlusKept(keys, "alt", "Alt");
    PlusKept(keys, "shift", "Shift");
    PlusKept(keys, "meta", "Meta");
    ModifierSteps(x, rest);
  }

  /** The modifier steps on a head, a `+` and a tail they leave alone. */
  lemma ModifierSteps(x: string, rest: string)
    requires ReplaceAll(rest, "cmd", "⌘") == rest && ReplaceAll(rest, "ctrl", "Ctrl") == rest
    requires ReplaceAll(rest, "alt", "Alt") == rest && ReplaceAll(rest, "shift", "Shift") == rest
    requires ReplaceAll(rest, "meta", "Meta") == rest
    ensures NameModifiers(x + "+" + rest) == NameModifiers(x) + "+" + rest
  {
    var s1 := ReplaceAll(x, "cmd", "⌘");
    var s2 := ReplaceAll(s1, "ctrl", "Ctrl");
    var s3 := ReplaceAll(s2, "alt", "Alt");
    var s4 := ReplaceAll(s3, "shift", "Shift");
    PlusStep(x, rest, "cmd", "⌘");
    PlusStep(s1, rest, "ctrl", "Ctrl");
    PlusStep(s2, rest, "alt", "Alt");
    PlusStep(s3, rest, "shift", "Shift");
    PlusStep(s4, rest, "meta", "Meta");
  }

  /** The key steps leave keys without keywords alone. */
  lemma {:induction false} NameKeysHead(x: string, keys: seq<string>)
    requires |keys| >= 1 && forall i :: 0 <= i < |keys| ==> KeywordFree(keys[i])
    ensures NameKeys(x + " + " + JoinWith(keys, " + ")) == NameKeys(x) + " + " + JoinWith(keys, " + ")
  {
    var rest := JoinWith(keys, " + ");
    SpacedKept(keys, "backslash", "\\");
    SpacedKept(keys, "space", "Space");
    SpacedKept(keys, "enter", "Enter");
    SpacedKept(keys, "tab", "Tab");
    SpacedKept(keys, "escape", "Esc");
    KeySteps(x, rest);
  }

  /** The key steps on a head, a ` + ` and a tail they leave alone. */
  lemma KeySteps(x: string, rest: string)
    requires ReplaceAll(rest, "backslash", "\\") == rest && ReplaceAll(rest, "space", "Space") == rest
    requires ReplaceAll(rest, "enter", "Enter") == rest && ReplaceAll(rest, "tab", "Tab") == rest
    requires ReplaceAll(rest, "escape", "Esc") == rest
    ensures NameKeys(x + " + " + rest) == NameKeys(x) + " + " + rest
  {
    var s1 := ReplaceAll(x, "backslash", "\\");
    var s2 := ReplaceAll(s1, "space", "Space");
    var s3 := ReplaceAll(s2, "enter", "Enter");
    var s4 := ReplaceAll(s3, "tab", "Tab");
    SpacedStep(x, rest, "backslash", "\\");
    SpacedStep(s1, rest, "space", "Space");
    SpacedStep(s2, rest, "enter", "Enter");
    SpacedStep(s3, rest, "tab", "Tab");
    SpacedStep(s4, rest, "escape", "Esc");
  }

  /** Keys without keywords, joined with `+`, are left alone by a keyword step. */
  lemma PlusKept(keys: seq<string>, pat: string, rep: string)
    requires pat in Keywords && |keys| >= 1 && forall i :: 0 <= i < |keys| ==> KeywordFree(keys[i])
    ensures ReplaceAll(Join(keys, '+'), pat, rep) == Join(keys, '+')
  {
    KeywordUnmatched(pat);
    JoinAbsent(keys, pat, rep);
  }

  /** Keys without keywords, joined with ` + `, are left alone by a keyword step. */
  lemma SpacedKept(keys: seq<string>, pat: string, rep: string)
    requires pat in Keywords && |keys| >= 1 && forall i :: 0 <= i < |keys| ==> KeywordFree(keys[i])
    ensures ReplaceAll(JoinWith(keys, " + "), pat, rep) == JoinWith(keys, " + ")
  {
    KeywordUnmatched(pat);
    JoinWithAbsent(keys, pat, rep);
  }

  /** One keyword step on a head, a `+` and a tail it leaves alone. */
  lemma PlusStep(x: string, rest: string, pat: string, rep: string)
    requires pat in Keywords && ReplaceAll(rest, pat, rep) == rest
    ensures ReplaceAll(x + "+" + rest, pat, rep) == ReplaceAll(x, pat, rep) + "+" + rest
  {
    KeywordUnmatched(pat);
    assert x + "+" + rest == x + ['+'] + rest;
    ReplaceSplits(x, '+', rest, pat, rep);
  }

  /** One keyword step on a head, a ` + ` and a tail it leaves alone. */
  lemma SpacedStep(x: string, rest: string, pat: string, rep: string)
    requires pat in Keywords && ReplaceAll(rest, pat, rep) == rest
    ensures ReplaceAll(x + " + " + rest, pat, rep) == ReplaceAll(x, pat, rep) + " + " + rest
  {
    KeywordUnmatched(pat);
    SpacedSplits(x, rest, pat, rep);
  }

  /** The keywords are lower-case words: neither `+` nor a space matches any of their letters. */
  lemma KeywordUnmatched(pat: string)
    requires pat in Keywords
    ensures |pat| > 0 && Unmatched(pat, '+') && Unmatched(pat, ' ')
  {
  }

  /** A ` + ` separator splits a replacement the way a single unmatched character does. */
  lemma SpacedSplits(a: string, b: string, pat: string, rep: string)
    requires |pat| > 0 && Unmatched(pat, '+') && Unmatched(pat, ' ')
    ensures ReplaceAll(a + " + " + b, pat, rep) == ReplaceAll(a, pat, rep) + " + " + ReplaceAll(b, pat, rep)
  {
    var z := [' '] + b;
    var y := ['+'] + z;
    LeadSplits(' ', b, pat, rep);
    LeadSplits('+', z, pat, rep);
    ReplaceSplits(a, ' ', y, pat, rep);
    SpacedParts(a, b);
    SpacedParts(ReplaceAll(a, pat, rep), ReplaceAll(b, pat, rep));
  }

  /** ` + ` is a space, a `+` and a space. */
  lemma SpacedParts(a: string, b: string)
    ensures a + " + " + b == a + [' '] + (['+'] + ([' '] + b))
  {
  }

  /** An unmatched first character is kept and the rest replaced. */
  lemma LeadSplits(c: char, b: string, pat: string, rep: string)
    requires |pat| > 0 && Unmatched(pat, c)
    ensures ReplaceAll([c] + b, pat, rep) == [c] + ReplaceAll(b, pat, rep)
  {
    var e: string := [];
    ReplaceSplits(e, c, b, pat, rep);
    assert e + [c] + b == [c] + b;
  }

  /** Keys holding no occurrence of an unmatched pattern are left alone when joined with `+`. */
  lemma {:induction false} JoinAbsent(keys: seq<string>, pat: string, rep: string)
    requires |keys| >= 1 && |pat| > 0 && Unmatched(pat, '+')
    requires forall i :: 0 <= i < |keys| ==> !ContainsIgnoreCase(keys[i], pat)
    ensures ReplaceAll(Join(keys, '+'), pat, rep) == Join(keys, '+')
    decreases |keys|
  {
    ReplaceAbsent(keys[0], pat, rep);
    if |keys| > 1 {
      JoinAbsent(keys[1..], pat, rep);
      ReplaceSplits(keys[0], '+', Join(keys[1..], '+'), pat, rep);
    }
  }

  /** Keys holding no occurrence of an unmatched pattern are left alone when joined with ` + `. */
  lemma {:induction false} JoinWithAbsent(keys: seq<string>, pat: string, rep: string)
    requires |keys| >= 1 && |pat| > 0 && Unmatched(pat, '+') && Unmatched(pat, ' ')
    requires forall i :: 0 <= i < |keys| ==> !ContainsIgnoreCase(keys[i], pat)
    ensures ReplaceAll(JoinWith(keys, " + "), pat, rep) == JoinWith(keys, " + ")
    decreases |keys|
  {
    ReplaceAbsent(keys[0], pat, rep);
    if |keys| > 1 {
      JoinWithAbsent(keys[1..], pat, rep);
      SpacedSplits(keys[0], JoinWith(keys[1..], " + "), pat, rep);
    }
  }

  /** The pieces joined with a separator string. */
  function JoinWith(pieces: seq<string>, sep: string): string
    requires |pieces| >= 1
    decreases |pieces|
  {
    if |pieces| == 1 then pieces[0] else pieces[0] + sep + JoinWith(pieces[1..], sep)
  }

  /** The `/\+/g` step: every `+` becomes ` + ` and nothing else changes. */
  lemma {:induction false} SpacePlus(s: string)
    ensures ReplaceAll(s, "+", " + ") == JoinWith(Split(s, '+'), " + ")
    decreases |s|
  {
    if s != [] {
      SpacePlus(s[1..]);
      var rest := Split(s[1..], '+');
      assert LowerStr(s[..1]) == LowerStr("+") <==> s[0] == '+' by {
        assert LowerStr(s[..1])[0] == Lower(s[0]);
      }
      if s[0] == '+' {
        assert Split(s, '+') == [""] + rest;
        assert s[1..] == s[|"+"|..];
      } else {
        var ps := Split(s, '+');
        assert ps == [[s[0]] + rest[0]] + rest[1..];
        if |rest| > 1 {
          assert ps[1..] == rest[1..];
        }
      }
    }
  }

  // ---------------------------------------------------------------------
  // Shortcuts made of modifiers, `backslash` and plain keys

  /** A token the display chain handles on its own: a modifier, `backslash`, or a plain key. */
  predicate Displayable(t: string) {
    t in Modifiers || t == "backslash" || ('+' !in t && KeywordFree(t))
  }

  /** A token after the modifier replacements. */
  function Named(t: string): string {
    if t in Modifiers then Shown(t) else t
  }

  /** A token as the settings screen shows it. */
  function DisplayToken(t: string): string {
    if t in Modifiers then Shown(t) else if t == "backslash" then "\\" else t
  }

  /**
   * A shortcut of `+`-separated modifiers, `backslash` and plain keys is
   * displayed token by token: modifiers by their display names, `backslash`
   * as `\`, plain keys as written, joined with ` + `.
   */
  lemma {:induction false} FormatTokens(tokens: seq<string>)
    requires |tokens| >= 1 && forall i :: 0 <= i < |tokens| ==> Displayable(tokens[i])
    ensures FormatForDisplay(Join(tokens, '+')) == JoinWith(Map(DisplayToken, tokens), " + ")
  {
    var named := Map(Named, tokens);
    NameModifiersJoin(tokens);
    forall i | 0 <= i < |named|
      ensures '+' !in named[i]
    {
      TokenNamed(tokens[i]);
    }
    SpacePlus(Join(named, '+'));
    SplitJoin(named, '+');
    NameKeysJoin(tokens);
  }

  /**
   * The shipped default shortcuts as displayed: with `cmd` on macOS and
   * `ctrl` elsewhere, shown as `⌘` or `Ctrl`, then `\` for the toggle and
   * `Shift` and the letter for the other three.
   */
  lemma {:induction false} DefaultsDisplay(platform: string)
    ensures var m := Shown(DefaultModifier(platform));
            var d := PlatformDefaults(platform);
            && FormatForDisplay(d.toggle) == m + " + \\"
            && FormatForDisplay(d.audio) == m + " + Shift + a"
            && FormatForDisplay(d.screenshot) == m + " + Shift + s"
            && FormatForDisplay(d.systemAudio) == m + " + Shift + m"
  {
    var m := DefaultModifier(platform);
    var d := PlatformDefaults(platform);
    DefaultsShape(platform);
    DefaultTokens(m, "backslash", "", d.toggle);
    DefaultTokens(m, "shift", "a", d.audio);
    DefaultTokens(m, "shift", "s", d.screenshot);
    DefaultTokens(m, "shift", "m", d.systemAudio);
    DefaultsShown(m);
  }

  /** The display forms of the default tokens. */
  lemma {:induction false} DefaultsShown(m: string)
    requires m in Modifiers
    ensures JoinWith(Map(DisplayToken, [m, "backslash"]), " + ") == Shown(m) + " + \\"
    ensures JoinWith(Map(DisplayToken, [m, "shift", "a"]), " + ") == Shown(m) + " + Shift + a"
    ensures JoinWith(Map(DisplayToken, [m, "shift", "s"]), " + ") == Shown(m) + " + Shift + s"
    ensures JoinWith(Map(DisplayToken, [m, "shift", "m"]), " + ") == Shown(m) + " + Shift + m"
  {
    ThreeShown([m, "shift", "a"]);
    ThreeShown([m, "shift", "s"]);
    ThreeShown([m, "shift", "m"]);
    var two := Map(DisplayToken, [m, "backslash"]);
    assert two[1..] == ["\\"];
  }

  /** The defaults as a modifier and `+`-separated keys. */
  lemma {:induction false} DefaultsShape(platform: string)
    ensures var m := DefaultModifier(platform);
            var d := PlatformDefaults(platform);
            && m in Modifiers
            && d.toggle == m + "+" + "backslash"
            && d.audio == m + "+" + "shift" + "+" + "a"
            && d.screenshot == m + "+" + "shift" + "+" + "s"
            && d.systemAudio == m + "+" + "shift" + "+" + "m"
  {
  }

  /** A default: the modifier, then `backslash` alone or `shift` and a one-letter key. */
  lemma {:induction false} DefaultTokens(m: string, k1: string, k2: string, hotkey: string)
    requires m in Modifiers
    requires (k1 == "backslash" && k2 == "" && hotkey == m + "+" + k1)
          || (k1 == "shift" && |k2| == 1 && '+' !in k2 && hotkey == m + "+" + k1 + "+" + k2)
    ensures k2 == "" ==> FormatForDisplay(hotkey) == JoinWith(Map(DisplayToken, [m, k1]), " + ")
    ensures k2 != "" ==> FormatForDisplay(hotkey) == JoinWith(Map(DisplayToken, [m, k1, k2]), " + ")
  {
    if k2 == "" {
      var tokens := [m, k1];
      assert Join(tokens, '+') == hotkey by {
        assert tokens[1..] == [k1];
      }
      FormatTokens(tokens);
    } else {
      var tokens := [m, k1, k2];
      ShortKeywordFree(k2);
      ThreeJoined(tokens, hotkey);
      FormatTokens(tokens);
    }
  }

  lemma {:induction false} ThreeJoined(tokens: seq<string>, hotkey: string)
    requires |tokens| == 3 && hotkey == tokens[0] + "+" + tokens[1] + "+" + tokens[2]
    ensures Join(tokens, '+') == hotkey
  {
    assert Join(tokens[1..][1..], '+') == tokens[2];
    assert Join(tokens[1..], '+') == tokens[1] + ['+'] + tokens[2];
  }

  lemma {:induction false} ThreeShown(tokens: seq<string>)
    requires |tokens| == 3 && tokens[0] in Modifiers && tokens[1] == "shift" && |tokens[2]| == 1
    ensures JoinWith(Map(DisplayToken, tokens), " + ") == Shown(tokens[0]) + " + Shift + " + tokens[2]
  {
    var shown := Map(DisplayToken, tokens);
    assert shown[0] == Shown(tokens[0]) && shown[1] == "Shift";
    assert tokens[2] !in Modifiers && tokens[2] != "backslash";
    assert shown[1..][1..] == [tokens[2]];
    assert JoinWith(shown[1..], " + ") == "Shift + " + tokens[2];
  }

  /** A key shorter than every keyword holds none of them. */
  lemma ShortKeywordFree(t: string)
    requires |t| < 3 && '+' !in t
    ensures KeywordFree(t)
  {
  }

  /** What the two halves of the chain do to one displayable token. */
  lemma {:induction false} TokenNamed(t: string)
    requires Displayable(t)
    ensures NameModifiers(t) == Named(t) && '+' !in Named(t) && NameKeys(Named(t)) == DisplayToken(t)
  {
    if t in Modifiers {
      ModifierShown(t);
    } else if t == "backslash" {
      BackslashShown(t, "\\");
    } else {
      var k := Keywords;
      assert !ContainsIgnoreCase(t, k[0]) && !ContainsIgnoreCase(t, k[1]) && !ContainsIgnoreCase(t, k[2]);
      assert !ContainsIgnoreCase(t, k[3]) && !ContainsIgnoreCase(t, k[4]) && !ContainsIgnoreCase(t, k[5]);
      assert !ContainsIgnoreCase(t, k[6]) && !ContainsIgnoreCase(t, k[7]) && !ContainsIgnoreCase(t, k[8]);
      assert !ContainsIgnoreCase(t, k[9]);
      ReplaceAbsent(t, "cmd", "⌘");
      ReplaceAbsent(t, "ctrl", "Ctrl");
      ReplaceAbsent(t, "alt", "Alt");
      ReplaceAbsent(t, "shift", "Shift");
      ReplaceAbsent(t, "meta", "Meta");
      ReplaceAbsent(t, "backslash", "\\");
      ReplaceAbsent(t, "space", "Space");
      ReplaceAbsent(t, "enter", "Enter");
      ReplaceAbsent(t, "tab", "Tab");
      ReplaceAbsent(t, "escape", "Esc");
    }
  }

  /** `backslash` passes the modifier steps and becomes `\`, which the later steps keep. */
  lemma {:induction false} BackslashShown(t: string, n: string)
    requires t == "backslash" && n == "\\"
    ensures NameModifiers(t) == t && NameKeys(t) == n
  {
    BackslashFront(t);
    BackslashBack(t, n);
  }

  lemma {:induction false} BackslashFront(t: string)
    requires t == "backslash"
    ensures NameModifiers(t) == t
  {
    assert forall i :: 0 <= i < |t| ==> t[i] in "abcklsh";
    NoModifierLetters(t);
  }

  /** Text made of the letters of `backslash` holds no modifier name. */
  lemma {:induction false} NoModifierLetters(t: string)
    requires forall i :: 0 <= i < |t| ==> t[i] in "abcklsh"
    ensures NameModifiers(t) == t
  {
    Keep(t, "cmd", "⌘", 1);
    Keep(t, "ctrl", "Ctrl", 2);
    Keep(t, "alt", "Alt", 2);
    Keep(t, "shift", "Shift", 2);
    Keep(t, "meta", "Meta", 0);
  }

  lemma {:induction false} BackslashBack(t: string, n: string)
    requires t == "backslash" && n == "\\"
    ensures NameKeys(t) == n
  {
    ReplaceWhole(t, "backslash", n);
    Keep(n, "space", "Space", 0);
    Keep(n, "enter", "Enter", 0);
    Keep(n, "tab", "Tab", 0);
    Keep(n, "escape", "Esc", 0);
  }

  /** The modifier steps treat the tokens between `+` signs one by one. */
  lemma {:induction false} NameModifiersJoin(tokens: seq<string>)
    requires |tokens| >= 1 && forall i :: 0 <= i < |tokens| ==> Displayable(tokens[i])
    ensures NameModifiers(Join(tokens, '+')) == Join(Map(Named, tokens), '+')
    decreases |tokens|
  {
    TokenNamed(tokens[0]);
    if |tokens| > 1 {
      NameModifiersJoin(tokens[1..]);
      NameModifiersSplit(tokens[0], Join(tokens[1..], '+'));
      assert Map(Named, tokens)[1..] == Map(Named, tokens[1..]);
    }
  }

  /** The key steps treat the tokens between ` + ` separators one by one. */
  lemma {:induction false} NameKeysJoin(tokens: seq<string>)
    requires |tokens| >= 1 && forall i :: 0 <= i < |tokens| ==> Displayable(tokens[i])
    ensures NameKeys(JoinWith(Map(Named, tokens), " + ")) == JoinWith(Map(DisplayToken, tokens), " + ")
    decreases |tokens|
  {
    TokenNamed(tokens[0]);
    if |tokens| > 1 {
      NameKeysJoin(tokens[1..]);
      assert Map(Named, tokens)[1..] == Map(Named, tokens[1..]);
      assert Map(DisplayToken, tokens)[1..] == Map(DisplayToken, tokens[1..]);
      NameKeysSplit(Named(tokens[0]), JoinWith(Map(Named, tokens[1..]), " + "));
    }
  }

  /** The modifier steps on both sides of a `+`. */
  lemma NameModifiersSplit(x: string, rest: string)
    ensures NameModifiers(x + "+" + rest) == NameModifiers(x) + "+" + NameModifiers(rest)
  {
    var x1, r1 := ReplaceAll(x, "cmd", "⌘"), ReplaceAll(rest, "cmd", "⌘");
    var x2, r2 := ReplaceAll(x1, "ctrl", "Ctrl"), ReplaceAll(r1, "ctrl", "Ctrl");
    var x3, r3 := ReplaceAll(x2, "alt", "Alt"), ReplaceAll(r2, "alt", "Alt");
    var x4, r4 := ReplaceAll(x3, "shift", "Shift"), ReplaceAll(r3, "shift", "Shift");
    PlusSplit(x, rest, "cmd", "⌘");
    PlusSplit(x1, r1, "ctrl", "Ctrl");
    PlusSplit(x2, r2, "alt", "Alt");
    PlusSplit(x3, r3, "shift", "Shift");
    PlusSplit(x4, r4, "meta", "Meta");
  }

  /** The key steps on both sides of a ` + `. */
  lemma NameKeysSplit(x: string, rest: string)
    ensures NameKeys(x + " + " + rest) == NameKeys(x) + " + " + NameKeys(rest)
  {
    var x1, r1 := ReplaceAll(x, "backslash", "\\"), ReplaceAll(rest, "backslash", "\\");
    var x2, r2 := ReplaceAll(x1, "space", "Space"), ReplaceAll(r1, "space", "Space");
    var x3, r3 := ReplaceAll(x2, "enter", "Enter"), ReplaceAll(r2, "enter", "Enter");
    var x4, r4 := ReplaceAll(x3, "tab", "Tab"), ReplaceAll(r3, "tab", "Tab");
    KeywordUnmatched("backslash");
    KeywordUnmatched("space");
    KeywordUnmatched("enter");
    KeywordUnmatched("tab");
    KeywordUnmatched("escape");
    SpacedSplits(x, rest, "backslash", "\\");
    SpacedSplits(x1, r1, "space", "Space");
    SpacedSplits(x2, r2, "enter", "Enter");
    SpacedSplits(x3, r3, "tab", "Tab");
    SpacedSplits(x4, r4, "escape", "Esc");
  }

  /** One keyword step on both sides of a `+`. */
  lemma PlusSplit(x: string, rest: string, pat: string, rep: string)
    requires pat in Keywords
    ensures ReplaceAll(x + "+" + rest, pat, rep) == ReplaceAll(x, pat, rep) + "+" + ReplaceAll(rest, pat, rep)
  {
    KeywordUnmatched(pat);
    assert x + "+" + rest == x + ['+'] + rest;
    ReplaceSplits(x, '+', rest, pat, rep);
  }
}
