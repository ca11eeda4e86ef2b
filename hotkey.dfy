/**
 * The hotkey settings of the front end (src/lib/storage/hotkey.storage.ts):
 * four named shortcuts with platform defaults, their validation, the search
 * for a shortcut already in use, and their display form.
 *
 * Local storage and `JSON.parse` are parameters: the stored text and a
 * parser that yields the four shortcuts or fails.
 */
module Hotkeys {
  import opened Wrappers
  import opened Text
  import opened Seqs

  /** The four shortcuts, in the order their entries are listed. */
  datatype Action = Toggle | Audio | Screenshot | SystemAudio

  datatype HotkeySettings = HotkeySettings(toggle: string, audio: string, screenshot: string, systemAudio: string)

  function Get(h: HotkeySettings, a: Action): string {
    match a
    case Toggle => h.toggle
    case Audio => h.audio
    case Screenshot => h.screenshot
    case SystemAudio => h.systemAudio
  }

  /** `Object.entries(settings)`. */
  function Entries(h: HotkeySettings): (r: seq<(Action, string)>)
    ensures |r| == 4 && forall i :: 0 <= i < 4 ==> r[i].1 == Get(h, r[i].0)
    ensures forall a: Action :: r[IndexOf(a)].0 == a
  {
    [(Toggle, h.toggle), (Audio, h.audio), (Screenshot, h.screenshot), (SystemAudio, h.systemAudio)]
  }

  function IndexOf(a: Action): (i: nat)
    ensures i < 4
  {
    match a
    case Toggle => 0
    case Audio => 1
    case Screenshot => 2
    case SystemAudio => 3
  }

  /** `{ ...settings, [key]: value }`. */
  function Update(h: HotkeySettings, a: Action, value: string): (r: HotkeySettings)
    ensures Get(r, a) == value
    ensures forall b :: b != a ==> Get(r, b) == Get(h, b)
  {
    match a
    case Toggle => h.(toggle := value)
    case Audio => h.(audio := value)
    case Screenshot => h.(screenshot := value)
    case SystemAudio => h.(systemAudio := value)
  }

  /** `getPlatformDefaultHotkeys`: command-key shortcuts on a Mac, control-key ones elsewhere. */
  function PlatformDefaults(platform: string): (r: HotkeySettings)
    ensures Contains(LowerStr(platform), "mac") ==> forall a :: StartsWith(Get(r, a), "cmd+")
    ensures !Contains(LowerStr(platform), "mac") ==> forall a :: StartsWith(Get(r, a), "ctrl+")
  {
    var m := DefaultModifier(platform);
    HotkeySettings(m + "+backslash", m + "+shift+a", m + "+shift+s", m + "+shift+m")
  }

  /** The modifier of every default shortcut: `cmd` on macOS, `ctrl` elsewhere. */
  function DefaultModifier(platform: string): string {
    if Contains(LowerStr(platform), "mac") then "cmd" else "ctrl"
  }

  /** `getHotkeySettings`: the stored shortcuts when there are some and they parse, else the defaults. */
  function Load(stored: Option<string>, parse: string -> Option<HotkeySettings>, platform: string): (r: HotkeySettings)
    ensures stored.None? || stored.value == "" || parse(stored.value).None? ==> r == PlatformDefaults(platform)
    ensures stored.Some? && stored.value != "" && parse(stored.value).Some? ==> r == parse(stored.value).value
  {
    if stored.Some? && stored.value != "" && parse(stored.value).Some? then parse(stored.value).value
    else PlatformDefaults(platform)
  }

  /** `updateHotkey`: the loaded shortcuts with one replaced; this is also what is stored. */
  function UpdateHotkey(stored: Option<string>, parse: string -> Option<HotkeySettings>, platform: string,
                        a: Action, value: string): (r: HotkeySettings)
    ensures Get(r, a) == value
    ensures forall b :: b != a ==> Get(r, b) == Get(Load(stored, parse, platform), b)
  {
    Update(Load(stored, parse, platform), a, value)
  }

  // ---------------------------------------------------------------------
  // validateHotkey

  const Modifiers: seq<string> := ["cmd", "ctrl", "alt", "shift", "meta"]

  /** `[a-z0-9]` under the `i` flag. */
  predicate IsAlnum(c: char) {
    'a' <= c <= 'z' || 'A' <= c <= 'Z' || '0' <= c <= '9'
  }

  /** The length of the run of letters and digits `s` starts with. */
  function AlnumRun(s: string): (n: nat)
    ensures n <= |s| && forall i :: 0 <= i < n ==> IsAlnum(s[i])
    ensures n < |s| ==> !IsAlnum(s[n])
    decreases |s|
  {
    if s != [] && IsAlnum(s[0]) then 1 + AlnumRun(s[1..]) else 0
  }

  /**
   * `(\+[a-z0-9]+)*$` with the `i` flag. As `+` is not a letter or digit,
   * every group's run reaches the next `+` or the end, so the groups of a
   * match are found from the left without backtracking.
   */
  predicate Groups(t: string)
    decreases |t|
  {
    t == [] || (t[0] == '+' && var n := AlnumRun(t[1..]); n > 0 && Groups(t[1 + n..]))
  }

  /** `validateHotkey`: `/^(cmd|ctrl|alt|shift|meta)(\+[a-z0-9]+)*$/i.test(hotkey)`. */
  predicate ValidHotkey(s: string) {
    exists m :: m in Modifiers && |m| <= |s| && LowerStr(s[..|m|]) == m && Groups(s[|m|..])
  }

  /** A token between `+` signs: one or more letters and digits. */
  predicate Token(p: string) {
    p != [] && forall i :: 0 <= i < |p| ==> IsAlnum(p[i])
  }

  predicate AllTokens(ps: seq<string>) {
    forall i :: 0 <= i < |ps| ==> Token(ps[i])
  }

  /** `s` is the modifier `m`, then nothing or a `+` and `+`-separated tokens. */
  predicate TokenForm(s: string, m: string) {
    && |m| <= |s| && LowerStr(s[..|m|]) == m
    && var rest := s[|m|..];
       rest == [] || (rest[0] == '+' && AllTokens(Split(rest[1..], '+')))
  }

  /**
   * After the modifier, a valid hotkey is empty, or a `+` followed by
   * `+`-separated tokens of letters and digits.
   */
  lemma ValidIffTokens(s: string)
    ensures ValidHotkey(s) <==> exists m :: m in Modifiers && TokenForm(s, m)
  {
    forall m | m in Modifiers && |m| <= |s| {
      GroupsIffTokens(s[|m|..]);
    }
  }

  lemma {:induction false} GroupsIffTokens(t: string)
    ensures Groups(t) <==> t == [] || (t[0] == '+' && AllTokens(Split(t[1..], '+')))
    decreases |t|, 0
  {
    if t != [] && t[0] == '+' {
      var u := t[1..];
      var n := AlnumRun(u);
      assert t[1 + n..] == u[n..];
      assert Groups(t) <==> n > 0 && Groups(u[n..]);
      GroupsAfterRun(u);
    }
  }

  /** After a `+`: a run of letters and digits, then groups, exactly when every piece is a token. */
  lemma {:induction false} GroupsAfterRun(u: string)
    ensures var n := AlnumRun(u);
      n > 0 && Groups(u[n..]) <==> AllTokens(Split(u, '+'))
    decreases |u|, 1
  {
    var n := AlnumRun(u);
    if n == |u| {
      TokensWholeRun(u);
    } else if u[n] == '+' {
      var v := u[n..];
      assert v[0] == '+' && v[1..] == u[n + 1..];
      GroupsIffTokens(v);
      TokensAfterRun(u, n);
    } else {
      NoTokensAfterJunk(u, n);
    }
  }

  /** Letters and digits only: the one piece, a token when there is any. */
  lemma TokensWholeRun(u: string)
    requires forall i :: 0 <= i < |u| ==> IsAlnum(u[i])
    ensures AllTokens(Split(u, '+')) <==> u != []
  {
    assert '+' !in u by {
      forall i | 0 <= i < |u| ensures u[i] != '+' {
        assert IsAlnum(u[i]);
      }
    }
    SplitNoSep(u, '+');
    var ps := Split(u, '+');
    assert ps[0] == u;
    assert Token(u) <==> u != [];
  }

  /** A run of letters and digits ended by `+`: the first token, then the tokens of the rest. */
  lemma TokensAfterRun(u: string, n: nat)
    requires n < |u| && u[n] == '+' && forall i :: 0 <= i < n ==> IsAlnum(u[i])
    ensures AllTokens(Split(u, '+')) <==> n > 0 && AllTokens(Split(u[n + 1..], '+'))
  {
    var a, b := u[..n], u[n + 1..];
    assert '+' !in a by {
      forall i | 0 <= i < |a| ensures a[i] != '+' {
        assert IsAlnum(u[i]);
      }
    }
    AroundElem(u, n);
    SplitPrefix(a, b, '+');
    var ps := Split(u, '+');
    var qs := Split(b, '+');
    assert ps == [a] + qs;
    AllTokensCons(a, qs);
    assert Token(a) <==> n > 0;
  }

  /** Every piece of a list with a first piece is a token iff the first one and the rest are. */
  lemma AllTokensCons(a: string, qs: seq<string>)
    ensures AllTokens([a] + qs) <==> Token(a) && AllTokens(qs)
  {
    var ps := [a] + qs;
    assert ps[0] == a;
    if AllTokens(ps) {
      forall i | 0 <= i < |qs| ensures Token(qs[i]) {
        assert qs[i] == ps[i + 1];
      }
    }
    if Token(a) && AllTokens(qs) {
      forall i | 0 <= i < |ps| ensures Token(ps[i]) {
        if i > 0 {
          assert ps[i] == qs[i - 1];
        }
      }
    }
  }

  /** A run of letters and digits ended by another character leaves a piece that is not a token. */
  lemma NoTokensAfterJunk(u: string, n: nat)
    requires n < |u| && u[n] != '+' && !IsAlnum(u[n]) && forall i :: 0 <= i < n ==> IsAlnum(u[i])
    ensures !AllTokens(Split(u, '+'))
  {
    var a := u[..n];
    assert '+' !in a by {
      forall i | 0 <= i < |a| ensures a[i] != '+' {
        assert IsAlnum(u[i]);
      }
    }
    assert u == a + u[n..];
    SplitHead(a, u[n..], '+');
    var p := Split(u, '+')[0];
    assert p[n] == u[n];
  }

  /** Text without the separator joins the first piece of what follows it. */
  lemma {:induction false} SplitHead(a: string, b: string, sep: char)
    requires sep !in a
    ensures Split(a + b, sep)[0] == a + Split(b, sep)[0]
    decreases |a|
  {
    if a != [] {
      assert (a + b)[1..] == a[1..] + b;
      SplitHead(a[1..], b, sep);
      assert a == [a[0]] + a[1..];
    } else {
      assert a + b == b;
    }
  }

  // ---------------------------------------------------------------------
  // checkHotkeyConflicts and getConflictMessage

  /**
   * The first entry, skipping `exclude`, whose shortcut equals `hotkey` ignoring
   * case: it clashes, no entry before it does, and nothing is found exactly
   * when no entry clashes.
   */
  function FirstConflict(hotkey: string, entries: seq<(Action, string)>, exclude: Option<Action>): (r: Option<Action>)
    ensures r.Some? ==> FirstClash(hotkey, entries, exclude, r.value)
    ensures r.None? <==> forall i :: 0 <= i < |entries| ==> !Clashes(hotkey, entries[i], exclude)
    decreases |entries|
  {
    if entries == [] then None
    else if Some(entries[0].0) != exclude && LowerStr(entries[0].1) == LowerStr(hotkey) then
      assert Clashes(hotkey, entries[0], exclude);
      Some(entries[0].0)
    else
      ClashShift(hotkey, entries, exclude);
      FirstConflict(hotkey, entries[1..], exclude)
  }

  /** An entry that clashes with `hotkey`. */
  predicate Clashes(hotkey: string, e: (Action, string), exclude: Option<Action>) {
    Some(e.0) != exclude && LowerStr(e.1) == LowerStr(hotkey)
  }

  /** `a` is the action of the first entry that clashes with `hotkey`. */
  predicate FirstClash(hotkey: string, entries: seq<(Action, string)>, exclude: Option<Action>, a: Action) {
    exists i :: 0 <= i < |entries| && entries[i].0 == a && Clashes(hotkey, entries[i], exclude)
                && forall j :: 0 <= j < i ==> !Clashes(hotkey, entries[j], exclude)
  }

  /** Past a first entry that does not clash, the first clash is the tail's. */
  lemma ClashShift(hotkey: string, entries: seq<(Action, string)>, exclude: Option<Action>)
    ensures entries != [] && !Clashes(hotkey, entries[0], exclude) ==>
              && (forall a :: FirstClash(hotkey, entries[1..], exclude, a) ==> FirstClash(hotkey, entries, exclude, a))
              && ((forall i :: 0 <= i < |entries| ==> !Clashes(hotkey, entries[i], exclude)) <==>
                  (forall i :: 0 <= i < |entries[1..]| ==> !Clashes(hotkey, entries[1..][i], exclude)))
  {
    if entries != [] && !Clashes(hotkey, entries[0], exclude) {
      var tail := entries[1..];
      assert forall j :: 1 <= j < |entries| ==> entries[j] == tail[j - 1];
      forall a | FirstClash(hotkey, tail, exclude, a) ensures FirstClash(hotkey, entries, exclude, a) {
        var i :| 0 <= i < |tail| && tail[i].0 == a && Clashes(hotkey, tail[i], exclude)
                 && forall j :: 0 <= j < i ==> !Clashes(hotkey, tail[j], exclude);
        assert entries[i + 1] == tail[i];
      }
    }
  }

  /** `checkHotkeyConflicts(hotkey, current, excludeKey)`: `hasConflict` is `r.Some?`. */
  function CheckConflicts(hotkey: string, current: HotkeySettings, exclude: Option<Action>): (r: Option<Action>)
    ensures r.Some? ==> Some(r.value) != exclude && LowerStr(Get(current, r.value)) == LowerStr(hotkey)
    ensures r.None? <==> forall a :: Some(a) == exclude || LowerStr(Get(current, a)) != LowerStr(hotkey)
    ensures r.Some? ==> forall b :: IndexOf(b) < IndexOf(r.value) ==>
      Some(b) == exclude || LowerStr(Get(current, b)) != LowerStr(hotkey)
  {
    var entries := Entries(current);
    assert forall a :: entries[IndexOf(a)] == (a, Get(current, a));
    assert forall k :: 0 <= k < 4 ==> IndexOf(entries[k].0) == k;
    FirstConflict(hotkey, entries, exclude)
  }

  lemma LowerOfLower(s: string)
    requires forall i :: 0 <= i < |s| ==> !('A' <= s[i] <= 'Z')
    ensures LowerStr(s) == s
  {
  }

  /** Strings that end in different lower-case letters differ ignoring case. */
  lemma LastLetterDiffers(x: string, y: string)
    requires x != [] && y != [] && 'a' <= x[|x| - 1] <= 'z' && 'a' <= y[|y| - 1] <= 'z' && x[|x| - 1] != y[|y| - 1]
    ensures LowerStr(x) != LowerStr(y)
  {
    if |x| == |y| {
      assert LowerStr(x)[|x| - 1] != LowerStr(y)[|y| - 1];
    }
  }

  /** The defaults never conflict with each other: moving one shortcut over another finds no clash. */
  lemma DefaultsDistinct(platform: string, a: Action)
    ensures CheckConflicts(Get(PlatformDefaults(platform), a), PlatformDefaults(platform), Some(a)).None?
  {
    var d := PlatformDefaults(platform);
    assert d.toggle[|d.toggle| - 1] == 'h' && d.audio[|d.audio| - 1] == 'a';
    assert d.screenshot[|d.screenshot| - 1] == 's' && d.systemAudio[|d.systemAudio| - 1] == 'm';
    forall b | b != a ensures LowerStr(Get(d, b)) != LowerStr(Get(d, a)) {
      LastLetterDiffers(Get(d, b), Get(d, a));
    }
  }

  /** The modifiers are written in lower case. */
  lemma ModifierLower(m: string)
    requires m in Modifiers
    ensures LowerStr(m) == m
  {
    assert m == "cmd" || m == "ctrl" || m == "alt" || m == "shift" || m == "meta";
    LowerOfLower(m);
  }

  /** A modifier followed by `+`-joined tokens is a valid hotkey. */
  lemma ValidForm(m: string, tokens: seq<string>)
    requires m in Modifiers && |tokens| >= 1 && AllTokens(tokens)
    ensures ValidHotkey(m + ("+" + Join(tokens, '+')))
  {
    var rest := "+" + Join(tokens, '+');
    var s := m + rest;
    assert s[..|m|] == m && s[|m|..] == rest;
    ModifierLower(m);
    forall i | 0 <= i < |tokens| ensures '+' !in tokens[i] {
      forall k | 0 <= k < |tokens[i]| ensures tokens[i][k] != '+' {
        assert IsAlnum(tokens[i][k]);
      }
    }
    SplitJoin(tokens, '+');
    assert rest[1..] == Join(tokens, '+');
    GroupsIffTokens(rest);
  }

  /** The defaults pass validation: each is the modifier, then `+`-joined tokens. */
  lemma DefaultsValid(platform: string, a: Action)
    ensures ValidHotkey(Get(PlatformDefaults(platform), a))
  {
    var m := DefaultModifier(platform);
    assert m in Modifiers;
    match a
    case Toggle =>
      assert "+backslash" == "+" + Join(["backslash"], '+');
      ValidForm(m, ["backslash"]);
    case Audio =>
      assert "+shift+a" == "+shift+" + ['a'];
      ShiftShortcutValid(m, 'a');
    case Screenshot =>
      assert "+shift+s" == "+shift+" + ['s'];
      ShiftShortcutValid(m, 's');
    case SystemAudio =>
      assert "+shift+m" == "+shift+" + ['m'];
      ShiftShortcutValid(m, 'm');
  }

  /** A modifier with shift and a letter is a valid hotkey. */
  lemma ShiftShortcutValid(m: string, c: char)
    requires m in Modifiers && 'a' <= c <= 'z'
    ensures ValidHotkey(m + ("+shift+" + [c]))
  {
    assert "+shift+" + [c] == "+" + Join(["shift", [c]], '+');
    ValidForm(m, ["shift", [c]]);
  }

  /** The names `getConflictMessage` shows. */
  function DisplayName(a: Action): (r: string)
    ensures r == "Toggle Window" <==> a == Toggle
    ensures r == "Voice Input" <==> a == Audio
    ensures r == "Screenshot" <==> a == Screenshot
    ensures r == "System Audio" <==> a == SystemAudio
  {
    match a
    case Toggle => "Toggle Window"
    case Audio => "Voice Input"
    case Screenshot => "Screenshot"
    case SystemAudio => "System Audio"
  }

  const ConflictPrefix := "This hotkey is already used by "

  /** `getConflictMessage(key)`: the fixed text followed by the key's name. */
  function ConflictMessage(a: Action): (r: string)
    ensures StartsWith(r, ConflictPrefix) && r[|ConflictPrefix|..] == DisplayName(a)
  {
    ConflictPrefix + DisplayName(a)
  }

  /** Every key has its own message. */
  lemma ConflictMessagesDiffer(a: Action, b: Action)
    requires a != b
    ensures ConflictMessage(a) != ConflictMessage(b)
  {
    var x, y := DisplayName(a), DisplayName(b);
    assert x != y;
    assert ConflictMessage(a)[|ConflictPrefix|..] == x;
    assert ConflictMessage(b)[|ConflictPrefix|..] == y;
  }
}
