/** The two writes behind `enable_spi`: the backup that never overwrites, and the replacement of
    the file the machine boots from. */
module BootFiles {
  import opened Wrappers
  import opened BootText
  import opened BootConfig

  /** A file's name within its directory. */
  datatype File = File(name: string)

  const NAME := File("config.txt")
  const TEMPORARY := File(".config.txt.tmp")

  function Decimal(n: nat): (digits: string)
    ensures digits != "" && (n < 10 <==> |digits| == 1)
  {
    if n < 10 then [('0' as int + n) as char] else Decimal(n / 10) + [('0' as int + n % 10) as char]
  }

  /** The number a string of digits writes. */
  function Read(digits: string): int {
    if digits == "" then 0 else 10 * Read(digits[..|digits| - 1]) + (digits[|digits| - 1] as int - '0' as int)
  }

  /** A number is written in decimal digits, the first of them nought for nought alone. */
  lemma {:induction false} DecimalReadsBack(n: nat)
    ensures Read(Decimal(n)) == n && forall i | 0 <= i < |Decimal(n)| :: '0' <= Decimal(n)[i] <= '9'
    ensures Decimal(n)[0] == '0' ==> n == 0
  {
    if n >= 10 {
      DecimalReadsBack(n / 10);
      assert Decimal(n)[..|Decimal(n)| - 1] == Decimal(n / 10);
    }
  }

  lemma {:induction false} DecimalsDiffer(a: nat, b: nat)
    requires Decimal(a) == Decimal(b)
    ensures a == b
  {
    var x, y := Decimal(a), Decimal(b);
    assert x[|x| - 1] == y[|y| - 1];
    assert a % 10 == b % 10;
    if a >= 10 && b >= 10 {
      assert x[..|x| - 1] == Decimal(a / 10) && y[..|y| - 1] == Decimal(b / 10);
      DecimalsDiffer(a / 10, b / 10);
    }
  }

  function Base(now: string): string {
    NAME.name + ".ors-" + now
  }

  /** The k-th name tried for a backup. */
  function BackupName(now: string, suffix: nat): (file: File)
    ensures |file.name| > |NAME.name| && file.name[0] == 'c'
    ensures suffix == 0 <==> |file.name| == |Base(now)|
  {
    if suffix == 0 then File(Base(now)) else File(Base(now) + "." + Decimal(suffix))
  }

  lemma BackupNamesDiffer(now: string, a: nat, b: nat)
    requires BackupName(now, a) == BackupName(now, b)
    ensures a == b
  {
    var n := |Base(now)| + 1;
    if a != 0 && b != 0 {
      assert BackupName(now, a).name[n..] == Decimal(a);
      assert BackupName(now, b).name[n..] == Decimal(b);
      DecimalsDiffer(a, b);
    }
  }

  lemma BackupIsItsOwnFile(now: string, suffix: nat)
    ensures BackupName(now, suffix) != NAME && BackupName(now, suffix) != TEMPORARY
  {
    assert TEMPORARY.name[0] == '.';
  }

  /** The names tried before the k-th. */
  function Tried(now: string, k: nat): set<File> {
    set i: nat | i < k :: BackupName(now, i)
  }

  lemma NamesDiffer(now: string, a: nat, b: nat)
    requires a != b
    ensures BackupName(now, a) != BackupName(now, b)
  {
    if BackupName(now, a) == BackupName(now, b) {
      BackupNamesDiffer(now, a, b);
    }
  }

  lemma {:induction false} TriedAreMany(now: string, k: nat)
    ensures |Tried(now, k)| == k
  {
    hide BackupName;
    if k == 0 {
      assert Tried(now, 0) == {};
    } else {
      TriedAreMany(now, k - 1);
      forall i: nat | i < k - 1 ensures BackupName(now, i) != BackupName(now, k - 1) {
        NamesDiffer(now, i, k - 1);
      }
      assert Tried(now, k) == Tried(now, k - 1) + {BackupName(now, k - 1)};
    }
  }

  lemma TriedFit(now: string, k: nat, names: set<File>)
    requires Tried(now, k) <= names
    ensures k <= |names|
  {
    TriedAreMany(now, k);
    assert names == Tried(now, k) + (names - Tried(now, k));
  }

  /** Both settings are there, and nothing filters them. */
  ghost predicate BothPresent(text: string) {
    forall setting | setting in SPI_LINES :: Present(SplitLines(text), setting)
  }

  /** Some line that no filter governs is the first bus's own, spaces aside. */
  ghost predicate FirstBusOn(text: string) {
    var lines := SplitLines(text);
    exists i | 0 <= i < |lines| :: !Header(lines[i]) && Unconditional(lines, i) && Strip(lines[i]) == SPI0
  }

  /** Some line that no filter governs is an overlay for the second bus. */
  ghost predicate SecondBusOn(text: string) {
    var lines := SplitLines(text);
    exists i | 0 <= i < |lines| :: !Header(lines[i]) && Unconditional(lines, i) && OverlayLine(lines[i])
  }

  lemma PresentMeansOn(text: string)
    ensures Present(SplitLines(text), SPI0) <==> FirstBusOn(text)
    ensures Present(SplitLines(text), SPI1) <==> SecondBusOn(text)
  {
    var lines := SplitLines(text);
    forall i | 0 <= i < |lines|
      ensures Sets(lines[i], SPI0) <==> Strip(lines[i]) == SPI0
      ensures Sets(lines[i], SPI1) <==> OverlayLine(lines[i])
    {
      FirstBusLine(lines[i]);
      SecondBusLine(lines[i]);
    }
    hide SplitLines, Header, Unconditional, Strip, OverlayLine, Sets;
  }

  lemma BothMeansOn(text: string)
    ensures BothPresent(text) <==> FirstBusOn(text) && SecondBusOn(text)
  {
    PresentMeansOn(text);
    assert SPI0 in SPI_LINES && SPI1 in SPI_LINES by { assert SPI_LINES[0] == SPI0 && SPI_LINES[1] == SPI1; }
    assert forall s | s in SPI_LINES :: s == SPI0 || s == SPI1;
    hide SplitLines, FirstBusOn, SecondBusOn, Present;
  }

  /** What the two writes leave in the directory. */
  lemma WrittenFiles(before: map<File, string>, backup: File, text: string)
    requires NAME in before && backup !in before && backup != NAME && backup != TEMPORARY
    ensures var copied := before[backup := before[NAME]];
            var after := (copied - {TEMPORARY})[NAME := text];
            && NAME in copied && (copied - {TEMPORARY})[NAME] == before[NAME]
            && backup in after && after[backup] == before[NAME] && after[NAME] == text
            && forall name | name in before && name != NAME && name != TEMPORARY ::
              name in after && after[name] == before[name]
  {
    assert NAME != TEMPORARY by { assert NAME.name[0] == 'c' && TEMPORARY.name[0] == '.'; }
  }

  /** From one moment on, the file the machine boots from is there, whole, and one of these two. */
  ghost predicate WholeSince(moments: seq<map<File, string>>, since: nat, before: string, after: string) {
    since <= |moments| && forall k | since <= k < |moments| :: NAME in moments[k] && moments[k][NAME] in {before, after}
  }

  lemma WholeOn(moments: seq<map<File, string>>, now: seq<map<File, string>>, since: nat, before: string, after: string)
    requires moments <= now && WholeSince(moments, since, before, before) && WholeSince(now, |moments|, before, after)
    ensures WholeSince(now, since, before, after)
  {
    assert forall k | 0 <= k < |moments| :: now[k] == moments[k];
  }

  lemma StillWhole(moments: seq<map<File, string>>, before: string)
    ensures WholeSince(moments, |moments|, before, before)
  {
  }

  lemma WholeEitherWay(moments: seq<map<File, string>>, since: nat, before: string, after: string)
    requires WholeSince(moments, since, before, before)
    ensures WholeSince(moments, since, before, after)
  {
  }

  /** Where a call failed: the exception that came out of it. */
  datatype Outcome = Nothing | Enabled(added: seq<string>, backup: File) | BackupFailed | WriteFailed

  class BootDirectory {
    /** Every name in the directory, links included, and what it holds. */
    var files: map<File, string>
    /** Every state the directory has been in: what a power cut may leave. */
    ghost var moments: seq<map<File, string>>

    constructor (files: map<File, string>)
      ensures this.files == files && moments == []
    {
      this.files, moments := files, [];
    }

    /** The directory as it is from here on. */
    method Change(now: map<File, string>)
      modifies this
      ensures files == now && moments == old(moments) + [now]
    {
      files, moments := now, moments + [now];
    }

    /** `_create_backup`: the first name that is free, whatever is already there, holding exactly
        the original; or, if the write fails, nothing at all. */
    method CreateBackup(now: string, data: string, writes: bool) returns (name: Option<File>)
      modifies this
      ensures name.Some? <==> writes
      ensures name.None? ==> files == old(files)
      ensures name.Some? ==>
                && name.value !in old(files) && files == old(files)[name.value := data]
                && name.value != NAME && name.value != TEMPORARY
                && exists k: nat :: name.value == BackupName(now, k) && Tried(now, k) <= old(files).Keys
      ensures old(moments) <= moments && |moments| == |old(moments)| + 2 && moments[|moments| - 1] == files
      ensures name.Some? ==> moments[|old(moments)|] == old(files)[name.value := ""]
      ensures NAME in old(files) ==> WholeSince(moments, |old(moments)|, old(files)[NAME], old(files)[NAME])
    {
      hide BackupName;
      var suffix := 0;
      TriedFit(now, 0, files.Keys);
      while BackupName(now, suffix) in files
        invariant files == old(files) && moments == old(moments) && Tried(now, suffix) <= files.Keys
                  && suffix <= |files.Keys|
        decreases |files.Keys| - suffix
      {
        suffix := suffix + 1;
        assert Tried(now, suffix) == Tried(now, suffix - 1) + {BackupName(now, suffix - 1)};
        TriedFit(now, suffix, files.Keys);
      }
      BackupIsItsOwnFile(now, suffix);
      var candidate := BackupName(now, suffix);
      Change(files[candidate := ""]);
      if !writes {
        Change(files - {candidate});
        assert files == old(files);
        return None;
      }
      Change(files[candidate := data]);
      name := Some(candidate);
    }

    /** `_write_config`: whatever fails, and whenever the power goes, the name holds all of the old
        text or all of the new. The temporary file may hold any beginning of it. */
    method WriteConfig(text: string, writes: bool, torn: nat)
      requires NAME in files && torn <= |text|
      modifies this
      ensures files == if writes then (old(files) - {TEMPORARY})[NAME := text] else old(files) - {TEMPORARY}
      ensures moments == old(moments) + [old(files)[TEMPORARY := ""], old(files)[TEMPORARY := text[..torn]]]
                         + if writes then [old(files)[TEMPORARY := text], files] else [files]
      ensures old(moments) <= moments && WholeSince(moments, |old(moments)|, old(files)[NAME], text)
    {
      assert NAME != TEMPORARY by { assert NAME.name[0] == 'c' && TEMPORARY.name[0] == '.'; }
      Change(files[TEMPORARY := ""]);
      Change(files[TEMPORARY := text[..torn]]);
      assert files == old(files)[TEMPORARY := text[..torn]];
      if !writes {
        Change(files - {TEMPORARY});
        assert files == old(files) - {TEMPORARY};
        return;
      }
      Change(files[TEMPORARY := text]);
      assert files == old(files)[TEMPORARY := text];
      Change((files - {TEMPORARY})[NAME := text]);
      assert files == (old(files) - {TEMPORARY})[NAME := text];
    }

    /** `enable_spi`, on the directory that holds the file. Nothing is touched when nothing is
        missing; a success leaves the old text as a prefix of the new, both settings found under
        no filter, and the old text in a file that was free; and a failure leaves the file as it
        was. */
    method EnableSpi(now: string, backupWrites: bool, configWrites: bool) returns (outcome: Outcome, ghost text: string)
      requires NAME in files
      modifies this
      ensures outcome.Nothing? <==> BothPresent(old(files)[NAME])
      ensures outcome.Nothing? || outcome.BackupFailed? ==> files == old(files)
      ensures outcome.BackupFailed? ==> !backupWrites
      ensures outcome.WriteFailed? ==> !configWrites && NAME in files && files[NAME] == old(files)[NAME]
      ensures outcome.Enabled? ==>
                && backupWrites && configWrites
                && outcome.backup !in old(files) && outcome.backup in files && files[outcome.backup] == old(files)[NAME]
                && NAME in files && old(files)[NAME] <= files[NAME]
                && BothPresent(files[NAME])
                && (forall name | name in old(files) && name != NAME && name != TEMPORARY ::
                      name in files && files[name] == old(files)[name])
      ensures old(moments) <= moments && WholeSince(moments, |old(moments)|, old(files)[NAME], text)
      ensures outcome.Enabled? ==> text == files[NAME] == Appended(old(files)[NAME], outcome.added)
      ensures outcome.Nothing? <==> FirstBusOn(old(files)[NAME]) && SecondBusOn(old(files)[NAME])
      ensures outcome.Enabled? ==>
                && outcome.added == (if FirstBusOn(old(files)[NAME]) then [] else [SPI0])
                                    + (if SecondBusOn(old(files)[NAME]) then [] else [SPI1])
                && FirstBusOn(files[NAME]) && SecondBusOn(files[NAME])
      ensures !outcome.Nothing? ==> (outcome.BackupFailed? <==> !backupWrites)
      ensures !outcome.Nothing? && backupWrites ==> (outcome.Enabled? <==> configWrites)
    {
      var original := files[NAME];
      text := original;
      hide BothPresent, Appended, BackupName, Tried, WholeSince, FirstBusOn, SecondBusOn;
      BothMeansOn(original);
      StillWhole(moments, original);
      var missing := Missing(original);
      if missing == [] {
        outcome := Nothing;
        return;
      }
      text := Appended(original, missing);
      var backup, failed := Rewrite(now, Appended(original, missing), backupWrites, configWrites);
      outcome := if failed.Some? then failed.value else Enabled(missing, backup);
      BothMeansOn(text);
    }

    /** The backup, and then the new text in place of the old. */
    method Rewrite(now: string, text: string, backupWrites: bool, configWrites: bool)
      returns (backup: File, failed: Option<Outcome>)
      requires NAME in files
      modifies this
      ensures failed == if !backupWrites then Some(BackupFailed) else if !configWrites then Some(WriteFailed) else None
      ensures !backupWrites ==> files == old(files)
      ensures NAME in files && files[NAME] == if failed.None? then text else old(files)[NAME]
      ensures failed.None? ==>
                && backup !in old(files) && backup in files && files[backup] == old(files)[NAME]
                && (forall name | name in old(files) && name != NAME && name != TEMPORARY ::
                      name in files && files[name] == old(files)[name])
      ensures old(moments) <= moments && WholeSince(moments, |old(moments)|, old(files)[NAME], text)
    {
      hide BackupName, Tried, WholeSince;
      var copy := CreateBackup(now, files[NAME], backupWrites);
      if copy.None? {
        WholeEitherWay(moments, |old(moments)|, old(files)[NAME], text);
        return NAME, Some(BackupFailed);
      }
      backup := copy.value;
      WrittenFiles(old(files), backup, text);
      ghost var copied := moments;
      var torn: int := *;
      WriteConfig(text, configWrites, if 0 <= torn <= |text| then torn else 0);
      WholeOn(copied, moments, |old(moments)|, old(files)[NAME], text);
      failed := if configWrites then None else Some(WriteFailed);
    }

    /** A second run straight after a first that succeeded changes nothing. */
    method EnableTwice(now: string, later: string, backupWrites: bool, configWrites: bool) returns (outcome: Outcome)
      requires NAME in files && !BothPresent(files[NAME])
      modifies this
      ensures outcome.Nothing? && NAME in files && FirstBusOn(files[NAME]) && SecondBusOn(files[NAME])
      ensures exists backup :: backup !in old(files) && backup in files && files[backup] == old(files)[NAME]
    {
      var first, _ := EnableSpi(now, true, true);
      ghost var after := files;
      assert first.Enabled? ==> first.backup in after;
      ghost var text;
      outcome, text := EnableSpi(later, backupWrites, configWrites);
    }
  }

  /** The settings the text does not have, in order; appending them suffices. */
  method Missing(original: string) returns (missing: seq<string>)
    ensures missing == [] <==> BothPresent(original)
    ensures missing == (if FirstBusOn(original) then [] else [SPI0]) + (if SecondBusOn(original) then [] else [SPI1])
    ensures missing != [] ==> original <= Appended(original, missing) && BothPresent(Appended(original, missing))
  {
    hide Present, SplitLines, Appended, FirstBusOn, SecondBusOn;
    PresentMeansOn(original);
    var lines := SplitLines(original);
    var first := AlreadyHas(lines, SPI0);
    var second := AlreadyHas(lines, SPI1);
    missing := (if first then [] else [SPI0]) + (if second then [] else [SPI1]);
    assert SPI0 in SPI_LINES && SPI1 in SPI_LINES by { assert SPI_LINES[0] == SPI0 && SPI_LINES[1] == SPI1; }
    if missing != [] {
      AppendingSuffices(original, missing);
    }
  }
}
