/** What the text stored with a drift report says about the two configs. */
module DriftText {
  import opened Wrappers
  import Text
  import Difflib
  import DiffProofs
  import DiffText

  /** `lines` is a printed diff that turns `golden` into `current`, empty exactly if they are equal. */
  ghost predicate Turns(golden: string, current: string, lines: seq<string>) {
    && (lines == [] <==> golden == current)
    && var read := DiffText.ReadDiff(lines);
    && read.Some?
    && DiffProofs.Patch(Text.SplitKeep(golden), read.value, 0) == Some(Text.SplitKeep(current))
  }

  /** The stored text is such a diff, or its first 10000 characters. */
  ghost predicate Explains(golden: string, current: string, diff: string) {
    exists lines :: Turns(golden, current, lines) && CutFrom(Text.Concat(lines), diff)
  }

  predicate CutFrom(text: string, diff: string) {
    if |text| <= 10000 then diff == text else |diff| == 10000 && diff <= text
  }

  /** A diff that says something says first which two sides it compares. */
  predicate Headed(lines: seq<string>, fromFile: string, toFile: string) {
    lines != [] ==> |lines| > 2 && lines[0] == "--- " + fromFile + "\n" && lines[1] == "+++ " + toFile + "\n"
  }

  lemma UnifiedDiffTurns(golden: string, current: string, fromFile: string, toFile: string)
    ensures Turns(golden, current,
              Difflib.UnifiedDiff(Text.SplitKeep(golden), Text.SplitKeep(current), fromFile, toFile))
    ensures Headed(Difflib.UnifiedDiff(Text.SplitKeep(golden), Text.SplitKeep(current), fromFile, toFile),
              fromFile, toFile)
  {
    hide Difflib.UnifiedDiff, DiffText.ReadDiff, DiffProofs.Patch, Difflib.Hunks;
    DiffProofs.VerdictIsTextual(golden, current, fromFile, toFile);
    Text.SplitKeepInjective(golden, current);
    DiffText.PrintedDiffReadsBack(Text.SplitKeep(golden), Text.SplitKeep(current), fromFile, toFile);
  }

  lemma NothingTurns(config: string)
    ensures Turns(config, config, []) && Explains(config, config, "")
  {
    var lines := Text.SplitKeep(config);
    assert DiffText.ReadDiff([]) == Some([]);
    assert lines[0..] == lines;
    assert Text.Concat([]) == "";
    assert Turns(config, config, []);
  }
}
