/** Turning both SPI buses on in `config.txt`: sections, the appended lines, and the backup. */
module BootConfig {
  import opened BootText

  const SPI0 := "dtparam=spi=on"
  const SPI1 := "dtoverlay=spi1-2cs"
  const SPI_LINES := [SPI0, SPI1]
  const ALL := "[all]"
  const COMMENT := "# Added by `ors-daemon install`."

  // ---------------------------------------------------------------- what a line means

  predicate Header(line: string) {
    StartsWith(Strip(line), "[") && |Strip(line)| > 0 && Strip(line)[|Strip(line)| - 1] == ']'
  }

  function FilterName(line: string): string
    requires Header(line)
  {
    var stripped := Strip(line);
    Lower(Strip(if |stripped| > 1 then stripped[1..|stripped| - 1] else ""))
  }

  predicate ForAll(line: string)
    requires Header(line)
  {
    FilterName(line) == "all"
  }

  /** A line that makes this setting, wherever it stands. Any `spi1-` overlay does for ours. */
  predicate Sets(line: string, setting: string) {
    var stripped := Strip(line);
    var n := Equals(stripped);
    && !StartsWith(stripped, "#") && n < |stripped|
    && Strip(stripped[..n]) == setting[..Equals(setting)]
    && if StartsWith(setting, "dtoverlay=spi1-") then StartsWith(Strip(stripped[n + 1..]), "spi1-")
       else stripped == setting
  }

  /** What a header names, whatever its case and the spaces around the name. */
  lemma SectionsAreNamed(line: string)
    ensures Header(line) <==> var s := Strip(line); |s| >= 2 && s[0] == '[' && s[|s| - 1] == ']'
    ensures Header(line) ==>
              var name := Strip(Strip(line)[1..|Strip(line)| - 1]);
              ForAll(line) <==>
              |name| == 3 && name[0] in {'a', 'A'} && name[1] in {'l', 'L'} && name[2] in {'l', 'L'}
  {
    if Header(line) {
      var name := Strip(Strip(line)[1..|Strip(line)| - 1]);
      LowerIs(name);
    }
  }

  lemma LowerIs(name: string)
    ensures Lower(name) == "all" <==>
            |name| == 3 && name[0] in {'a', 'A'} && name[1] in {'l', 'L'} && name[2] in {'l', 'L'}
  {
    if |name| == 3 && name[0] in {'a', 'A'} && name[1] in {'l', 'L'} && name[2] in {'l', 'L'} {
      assert Lower(name)[0] == 'a' && Lower(name)[1] == 'l' && Lower(name)[2] == 'l';
      assert Lower(name) == "all";
    }
    if Lower(name) == "all" {
      assert |Lower(name)| == |name|;
      assert Lower(name)[0] == 'a' && Lower(name)[1] == 'l' && Lower(name)[2] == 'l';
    }
  }

  /** The first bus is turned on by one line alone, spaces at its ends aside. */
  lemma FirstBusLine(line: string)
    ensures Sets(line, SPI0) <==> Strip(line) == SPI0
  {
    FirstBusParts();
    hide Strip, Equals;
  }

  /** A line that turns the second bus on: no comment, and an overlay whose value starts `spi1-`. */
  ghost predicate OverlayLine(line: string) {
    var s := Strip(line);
    && (s != "" ==> s[0] != '#')
    && exists n | 0 <= n < |s| ::
         && s[n] == '=' && (forall i | 0 <= i < n :: s[i] != '=')
         && Strip(s[..n]) == "dtoverlay" && "spi1-" <= Strip(s[n + 1..])
  }

  lemma SecondBusLine(line: string)
    ensures Sets(line, SPI1) <==> OverlayLine(line)
  {
    SecondBusParts();
    var s := Strip(line);
    hide Strip, Equals;
    if n :| 0 <= n < |s| && s[n] == '=' && forall i | 0 <= i < n :: s[i] != '=' {
      EqualsIs(s, n);
    }
    assert StartsWith(s, "#") <==> s != "" && s[0] == '#' by {
      if s != "" && s[0] == '#' {
        assert s[..1] == "#";
      }
    }
  }

  /** No header but `[all]` governs the line at `i`: the last header before it, if any, is one. */
  ghost predicate Unconditional(lines: seq<string>, i: nat)
    requires i <= |lines|
  {
    || (forall h | 0 <= h < i :: !Header(lines[h]))
    || (exists h | 0 <= h < i :: Header(lines[h]) && ForAll(lines[h]) && forall k | h < k < i :: !Header(lines[k]))
  }

  /** The setting is there, and nothing filters it. */
  ghost predicate Present(lines: seq<string>, setting: string) {
    exists i | 0 <= i < |lines| :: !Header(lines[i]) && Unconditional(lines, i) && Sets(lines[i], setting)
  }

  /** `_already_has`: one pass, with the filter in force carried along. */
  method AlreadyHas(lines: seq<string>, setting: string) returns (found: bool)
    ensures found <==> Present(lines, setting)
  {
    var unconditional := true;
    for i := 0 to |lines|
      invariant unconditional <==> Unconditional(lines, i)
      invariant forall k | 0 <= k < i :: Header(lines[k]) || !Unconditional(lines, k) || !Sets(lines[k], setting)
    {
      hide Sets, FilterName;
      NextLine(lines, i);
      if Header(lines[i]) {
        unconditional := FilterName(lines[i]) == "all";
        continue;
      }
      if !unconditional {
        continue;
      }
      if Sets(lines[i], setting) {
        return true;
      }
    }
    return false;
  }

  lemma NextLine(lines: seq<string>, i: nat)
    requires i < |lines|
    ensures Unconditional(lines, i + 1) <==> if Header(lines[i]) then ForAll(lines[i]) else Unconditional(lines, i)
  {
    hide Header, ForAll;
    if Header(lines[i]) {
    } else if Unconditional(lines, i) {
      if h :| 0 <= h < i && Header(lines[h]) && ForAll(lines[h]) && forall k | h < k < i :: !Header(lines[k]) {
        assert forall k | h < k < i + 1 :: !Header(lines[k]);
      }
    }
  }

  // ---------------------------------------------------------------- the appended text

  function Join(lines: seq<string>): string {
    if lines == [] then "" else if |lines| == 1 then lines[0] else lines[0] + "\n" + Join(lines[1..])
  }

  lemma {:induction false} JoinTerminates(lines: seq<string>)
    requires lines != []
    ensures Join(lines) + "\n" == Terminated(lines)
  {
    if |lines| == 1 {
      assert lines[1..] == [];
      assert Terminated(lines) == lines[0] + "\n" + "";
    } else {
      JoinTerminates(lines[1..]);
      assert Join(lines) + "\n" == lines[0] + "\n" + (Join(lines[1..]) + "\n");
    }
  }

  function Spacer(original: string): string {
    if original == "" || (|original| >= 2 && original[|original| - 2..] == "\n\n") then ""
    else if original[|original| - 1] == '\n' then "\n"
    else "\n\n"
  }

  /** What keeps our lines apart: as little as leaves a blank line after a text that is not empty. */
  lemma OneBlankLine(original: string)
    ensures Spacer(original) in {"", "\n", "\n\n"}
    ensures original == "" ==> Spacer(original) == ""
    ensures original != "" ==> |original + Spacer(original)| >= 2
    ensures original != "" ==> (original + Spacer(original))[|original + Spacer(original)| - 2..] == "\n\n"
    ensures Spacer(original) != "" ==>
              var less := original + Spacer(original)[1..]; |less| < 2 || less[|less| - 2..] != "\n\n"
  {
  }

  function Appended(original: string, missing: seq<string>): string {
    original + Spacer(original) + ALL + "\n" + COMMENT + "\n" + Join(missing) + "\n"
  }

  /** The lines of the new text are the lines of the old, blank ones, and ours. */
  lemma AppendedLines(original: string, missing: seq<string>)
    returns (base: seq<string>)
    requires missing != [] && forall i | 0 <= i < |missing| :: OneLine(missing[i])
    ensures SplitLines(original) <= base
    ensures forall i | |SplitLines(original)| <= i < |base| :: base[i] == ""
    ensures SplitLines(Appended(original, missing)) == base + [ALL, COMMENT] + missing
    ensures original <= Appended(original, missing)
  {
    hide SplitLines, Terminated, OneLine;
    var spaced := original + Spacer(original);
    base := SplitLines(spaced);
    SpacerPads(original);
    var ours := [ALL, COMMENT] + missing;
    OursAreLines(missing);
    TerminatedSplits(ours);
    SplitApart(spaced, Terminated(ours));
    JoinTerminates(missing);
    AppendedIs(original, missing);
    assert base + ours == base + [ALL, COMMENT] + missing;
  }

  lemma OursAreLines(missing: seq<string>)
    requires forall i | 0 <= i < |missing| :: OneLine(missing[i])
    ensures forall i | 0 <= i < |missing| + 2 :: OneLine(([ALL, COMMENT] + missing)[i])
  {
  }

  lemma AppendedIs(original: string, missing: seq<string>)
    requires missing != [] && Join(missing) + "\n" == Terminated(missing)
    ensures Appended(original, missing) == original + Spacer(original) + Terminated([ALL, COMMENT] + missing)
    ensures original <= Appended(original, missing)
  {
    hide Join, Spacer;
    var ours := [ALL, COMMENT] + missing;
    assert ours[1..] == [COMMENT] + missing && ours[1..][1..] == missing;
    assert Terminated(ours) == ALL + "\n" + (COMMENT + "\n" + Terminated(missing));
    var head := original + Spacer(original);
    assert head + (ALL + "\n" + (COMMENT + "\n" + (Join(missing) + "\n")))
        == head + ALL + "\n" + COMMENT + "\n" + Join(missing) + "\n";
  }

  lemma SpacerPads(original: string)
    ensures EndsLine(original + Spacer(original))
    ensures Padded(SplitLines(original), SplitLines(original + Spacer(original)))
  {
    hide SplitLines;
    var once := original + "\n";
    NewlineKeepsLines(original);
    NewlineKeepsLines(once);
    assert original + "" == original;
    assert original + "\n\n" == once + "\n";
    if |original| >= 2 && original[|original| - 2..] == "\n\n" {
      assert original[|original| - 1] == original[|original| - 2..][1];
    }
    Padding(SplitLines(original), SplitLines(once), SplitLines(once + "\n"));
  }

  lemma Padding(a: seq<string>, b: seq<string>, c: seq<string>)
    requires Padded(a, b) && Padded(b, c)
    ensures Padded(a, c) && Padded(a, a)
  {
    assert forall i | |a| <= i < |c| :: c[i] == if i < |b| then b[|a|..][i - |a|] else c[|b|..][i - |b|];
  }

  // ---------------------------------------------------------------- found afterwards

  lemma FoundStaysFound(lines: seq<string>, more: seq<string>, setting: string)
    requires Present(lines, setting)
    ensures Present(lines + more, setting)
  {
    hide Sets, Header, ForAll;
    var i :| 0 <= i < |lines| && !Header(lines[i]) && Unconditional(lines, i) && Sets(lines[i], setting);
    assert (lines + more)[i] == lines[i];
    SamePrefix(lines, lines + more, i);
  }

  lemma SamePrefix(a: seq<string>, b: seq<string>, i: nat)
    requires i <= |a| && i <= |b| && a[..i] == b[..i]
    ensures Unconditional(a, i) ==> Unconditional(b, i)
  {
    hide Header, ForAll;
    assert forall h | 0 <= h < i :: a[h] == a[..i][h] == b[h];
    if h :| 0 <= h < i && Header(a[h]) && ForAll(a[h]) && forall k | h < k < i :: !Header(a[k]) {
      assert Header(b[h]) && ForAll(b[h]) && forall k | h < k < i :: !Header(b[k]);
    }
  }

  /** Below our own header nothing filters our lines, whatever the text before it left in force. */
  lemma OursAreUnconditional(base: seq<string>, missing: seq<string>, k: nat)
    requires k < |missing| && forall i | 0 <= i < |missing| :: !Header(missing[i])
    requires Sets(missing[k], missing[k])
    ensures Present(base + [ALL, COMMENT] + missing, missing[k])
  {
    AllIsAHeader();
    hide Header, ForAll, Sets;
    var lines, h := base + [ALL, COMMENT] + missing, |base|;
    var i := h + 2 + k;
    assert lines[h] == ALL && lines[h + 1] == COMMENT && lines[i] == missing[k];
    assert forall j | h + 2 <= j < i :: lines[j] == missing[j - h - 2];
    assert Header(lines[h]) && ForAll(lines[h]) && forall j | h < j < i :: !Header(lines[j]);
    assert Unconditional(lines, i);
  }

  lemma AllIsAHeader()
    ensures Header(ALL) && ForAll(ALL) && !Header(COMMENT)
  {
    assert Bare(ALL) && Bare(COMMENT) && Bare("all");
    BareIsStripped(ALL);
    BareIsStripped(COMMENT);
    BareIsStripped("all");
    assert ALL[1..|ALL| - 1] == "all";
    assert Lower("all") == "all";
  }

  lemma SettingsAreSettings()
    ensures OneLine(SPI0) && OneLine(SPI1) && !Header(SPI0) && !Header(SPI1) && Sets(SPI0, SPI0) && Sets(SPI1, SPI1)
  {
    FirstSetting();
    SecondSetting();
  }

  lemma Taken(line: string, key: string, value: string)
    requires line == key + "=" + value && Bare(line) && Bare(key) && Bare(value)
    requires forall i | 0 <= i < |key| :: key[i] != '='
    ensures Strip(line) == line && Equals(line) == |key| < |line|
    ensures Strip(line[..|key|]) == key && Strip(line[|key| + 1..]) == value
  {
    BareIsStripped(line);
    BareIsStripped(key);
    BareIsStripped(value);
    EqualsIs(line, |key|);
    assert line[..|key|] == key && line[|key| + 1..] == value;
  }

  lemma FirstIsBare()
    ensures Bare(SPI0) && Bare("dtparam") && Bare("spi=on") && OneLine(SPI0)
  {
  }

  lemma SecondIsBare()
    ensures Bare(SPI1) && Bare("dtoverlay") && Bare("spi1-2cs") && OneLine(SPI1)
  {
  }

  lemma FirstBusParts()
    ensures SPI0[..Equals(SPI0)] == "dtparam" && !StartsWith(SPI0, "dtoverlay=spi1-") && !StartsWith(SPI0, "#")
    ensures Strip("dtparam") == "dtparam" && Equals(SPI0) < |SPI0|
  {
    hide Strip, Equals, Bare, OneLine;
    FirstIsBare();
    Taken(SPI0, "dtparam", "spi=on");
    BareIsStripped("dtparam");
    assert !StartsWith(SPI0, "dtoverlay=spi1-") by { assert SPI0[2] != "dtoverlay=spi1-"[2]; }
    assert !StartsWith(SPI0, "#") by { assert SPI0[0] == 'd'; }
    assert SPI0[..Equals(SPI0)] == "dtparam";
  }

  lemma SecondBusParts()
    ensures SPI1[..Equals(SPI1)] == "dtoverlay" && StartsWith(SPI1, "dtoverlay=spi1-")
  {
    hide Strip, Equals, Bare, OneLine;
    SecondIsBare();
    Taken(SPI1, "dtoverlay", "spi1-2cs");
    assert SPI1[..Equals(SPI1)] == "dtoverlay";
    assert StartsWith(SPI1, "dtoverlay=spi1-") by { assert SPI1[..15] == "dtoverlay=spi1-"; }
  }

  lemma FirstSetting()
    ensures OneLine(SPI0) && !Header(SPI0) && Sets(SPI0, SPI0)
  {
    hide Strip, Equals, Bare, OneLine;
    FirstIsBare();
    Taken(SPI0, "dtparam", "spi=on");
    assert !StartsWith(SPI0, "dtoverlay=spi1-") by { assert SPI0[2] != "dtoverlay=spi1-"[2]; }
    assert !StartsWith(SPI0, "#") && !StartsWith(SPI0, "[") by { assert SPI0[0] == 'd'; }
    assert SPI0[..Equals(SPI0)] == "dtparam";
  }

  lemma SecondSetting()
    ensures OneLine(SPI1) && !Header(SPI1) && Sets(SPI1, SPI1)
  {
    hide Strip, Equals, Bare, OneLine;
    SecondIsBare();
    Taken(SPI1, "dtoverlay", "spi1-2cs");
    assert SPI1[..Equals(SPI1)] == "dtoverlay";
    assert StartsWith(SPI1, "dtoverlay=spi1-") by { assert SPI1[..15] == "dtoverlay=spi1-"; }
    assert StartsWith("spi1-2cs", "spi1-") by { assert "spi1-2cs"[..5] == "spi1-"; }
    assert !StartsWith(SPI1, "#") && !StartsWith(SPI1, "[") by { assert SPI1[0] == 'd'; }
  }

  lemma {:induction false} EqualsIs(s: string, n: nat)
    requires n < |s| && s[n] == '=' && forall i | 0 <= i < n :: s[i] != '='
    ensures Equals(s) == n
  {
    if n > 0 {
      EqualsIs(s[1..], n - 1);
    }
  }

  /** Whatever the text, whatever its last section: after the lines it lacks are appended, both
      settings are found under no filter, and the old text is a prefix of the new. */
  lemma AppendingSuffices(original: string, missing: seq<string>)
    requires missing != [] && forall i | 0 <= i < |missing| :: missing[i] in SPI_LINES
    requires forall setting | setting in SPI_LINES :: setting in missing || Present(SplitLines(original), setting)
    ensures original <= Appended(original, missing)
    ensures forall setting | setting in SPI_LINES :: Present(SplitLines(Appended(original, missing)), setting)
  {
    SettingsAreSettings();
    hide SplitLines, Sets, Header, OneLine, Present, Appended;
    assert forall s | s in SPI_LINES :: s == SPI0 || s == SPI1;
    var base := AppendedLines(original, missing);
    var old_, new_ := SplitLines(original), SplitLines(Appended(original, missing));
    forall setting | setting in SPI_LINES ensures Present(new_, setting) {
      if k :| 0 <= k < |missing| && missing[k] == setting {
        OursAreUnconditional(base, missing, k);
      } else {
        FoundStaysFound(old_, new_[|old_|..], setting);
        assert new_ == old_ + new_[|old_|..];
      }
    }
  }
}
