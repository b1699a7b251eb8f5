/**
 * The `TASK:` prompt of the current app's inpainting request: the region's
 * controls are visited in table order, each control whose slider is positive
 * contributes the description of its level, and the descriptions are
 * numbered under a fixed header, followed by the doctor's notes when any.
 */
module InpaintPrompt {
  import opened Wrappers
  import JsRecord
  import Seqs
  import opened Text
  import opened EditText

  /** `RegionControlValues`: slider key to slider value. */
  type ControlValues = JsRecord.Record<int>

  /** `controlValues[key] ?? 0` */
  function SliderValue(values: ControlValues, key: string): int {
    JsRecord.GetOr(values, key, 0)
  }

  /** The descriptions the loop has pushed after visiting `controls`, in order. */
  function Pushed(controls: JsRecord.Record<Wording>, values: ControlValues): (descriptions: seq<string>)
    ensures |descriptions| <= |controls|
    ensures descriptions == [] <==> forall j :: 0 <= j < |controls| ==> SliderValue(values, controls[j].0) <= 0
    decreases |controls|
  {
    if controls == [] then []
    else
      var n := |controls| - 1;
      var value := SliderValue(values, controls[n].0);
      assert forall j :: 0 <= j < n ==> controls[..n][j] == controls[j];
      Pushed(controls[..n], values) + (if value > 0 then [controls[n].1.At(Level(value))] else [])
  }

  /** `descriptions.map((d, i) => `${i + 1}. ${d}`)` */
  function Numbered(descriptions: seq<string>): (lines: seq<string>)
    ensures |lines| == |descriptions|
    ensures forall j :: 0 <= j < |lines| ==> lines[j] == NatToString(j + 1) + ". " + descriptions[j]
  {
    seq(|descriptions|, j requires 0 <= j < |descriptions| => NatToString(j + 1) + ". " + descriptions[j])
  }

  /** The header above the list of changes. */
  function Header(location: string): (header: string)
    ensures |header| == |"TASK: Edit "| + |location| + |" in this face photo.\n\nCHANGES TO APPLY:\n"|
    ensures header[..11] == "TASK: Edit " && header[11..11 + |location|] == location
    ensures header[11 + |location|..] == " in this face photo.\n\nCHANGES TO APPLY:\n"
  {
    "TASK: Edit " + location + " in this face photo.\n\n" + "CHANGES TO APPLY:\n"
  }

  /** The notes as appended: present only when the trimmed notes are not empty. */
  function NotesSuffix(notes: Option<string>): (suffix: string)
    ensures suffix == "" <==> notes.None? || Trim(notes.value) == ""
  {
    if notes.Some? && Trim(notes.value) != "" then "\n\nDOCTOR'S NOTES: " + Trim(notes.value) else ""
  }

  /**
   * `buildInpaintPrompt`: "" for a region without descriptions or when no
   * described control is positive; otherwise the header naming the region's
   * location, the numbered descriptions one per line, and the notes.
   */
  method BuildInpaintPrompt(region: string, values: ControlValues, notes: Option<string>) returns (prompt: string)
    ensures JsRecord.Get(Descriptions, region).None? ==> prompt == ""
    ensures JsRecord.Get(Descriptions, region).Some? ==>
      var descriptions := Pushed(JsRecord.Get(Descriptions, region).value, values);
      && region in RegionLocation
      && (descriptions == [] ==> prompt == "")
      && (descriptions != [] ==>
            prompt == Header(RegionLocation[region]) + Join(Numbered(descriptions), "\n") + NotesSuffix(notes))
  {
    var entry := JsRecord.Get(Descriptions, region);
    if entry.None? {
      return "";
    }
    DescribedRegionHasLocation(region);
    prompt := PromptForControls(RegionLocation[region], entry.value, values, notes);
  }

  /** The prompt for one region's controls: "" when no slider is positive. */
  method PromptForControls(location: string, controls: JsRecord.Record<Wording>, values: ControlValues,
                           notes: Option<string>) returns (prompt: string)
    ensures var descriptions := Pushed(controls, values);
      && (descriptions == [] ==> prompt == "")
      && (descriptions != [] ==> prompt == Header(location) + Join(Numbered(descriptions), "\n") + NotesSuffix(notes))
  {
    var descriptions := CollectDescriptions(controls, values);
    if |descriptions| == 0 {
      return "";
    }
    prompt := "TASK: Edit " + location + " in this face photo.\n\n";
    prompt := prompt + "CHANGES TO APPLY:\n";
    assert prompt == Header(location);
    prompt := prompt + Join(Numbered(descriptions), "\n");
    if notes.Some? && Trim(notes.value) != "" {
      prompt := prompt + "\n\nDOCTOR'S NOTES: " + Trim(notes.value);
    }
    assert prompt == Header(location) + Join(Numbered(descriptions), "\n") + NotesSuffix(notes);
  }

  /** The loop over the region's controls, pushing one description per positive slider. */
  method CollectDescriptions(controls: JsRecord.Record<Wording>, values: ControlValues) returns (descriptions: seq<string>)
    ensures descriptions == Pushed(controls, values)
  {
    descriptions := [];
    for i := 0 to |controls|
      invariant descriptions == Pushed(controls[..i], values)
    {
      var value := SliderValue(values, controls[i].0);
      if value > 0 {
        descriptions := descriptions + [controls[i].1.At(Level(value))];
      }
      assert controls[..i + 1][..i] == controls[..i];
    }
    assert controls[..|controls|] == controls;
  }

  /** Every region with descriptions has a location. */
  lemma DescribedRegionHasLocation(region: string)
    requires JsRecord.Get(Descriptions, region).Some?
    ensures region in RegionLocation
  {
    TableIsWellFormed();
    var k :| 0 <= k < |Descriptions| && Descriptions[k] == (region, JsRecord.Get(Descriptions, region).value);
  }

  /** A control counts as active when its slider value, missing counting as 0, is positive. */
  function Active(values: ControlValues): ((string, Wording)) -> bool {
    (c: (string, Wording)) => SliderValue(values, c.0) > 0
  }

  /**
   * The descriptions are those of the active controls, in table order, each
   * worded at the level of its value; so there is one per active control.
   */
  lemma {:induction false} PushedAreActiveControls(controls: JsRecord.Record<Wording>, values: ControlValues)
    ensures var active := Seqs.Filter(controls, Active(values));
      var descriptions := Pushed(controls, values);
      && |descriptions| == |active|
      && forall j :: 0 <= j < |active| ==>
           descriptions[j] == active[j].1.At(Level(SliderValue(values, active[j].0)))
    decreases |controls|
  {
    if controls != [] {
      var n := |controls| - 1;
      PushedAreActiveControls(controls[..n], values);
      assert controls == controls[..n] + [controls[n]];
      Seqs.FilterAppend(controls[..n], [controls[n]], Active(values));
    }
  }

  /** Slider keys outside the table never affect the descriptions. */
  lemma {:induction false} UntabledKeysIgnored(controls: JsRecord.Record<Wording>, values: ControlValues, values': ControlValues)
    requires forall j :: 0 <= j < |controls| ==> SliderValue(values, controls[j].0) == SliderValue(values', controls[j].0)
    ensures Pushed(controls, values) == Pushed(controls, values')
    decreases |controls|
  {
    if controls != [] {
      UntabledKeysIgnored(controls[..|controls| - 1], values, values');
    }
  }

  /** The numbered list starts with "1. " and the first description. */
  lemma NumberingStartsAtOne(descriptions: seq<string>)
    requires descriptions != []
    ensures var listed := Join(Numbered(descriptions), "\n");
      |listed| >= 3 + |descriptions[0]| && listed[..3 + |descriptions[0]|] == "1. " + descriptions[0]
  {
    var lines := Numbered(descriptions);
    assert NatToString(1) == "1";
    assert lines[0] == "1. " + descriptions[0];
    if |lines| > 1 {
      assert Join(lines, "\n") == lines[0] + "\n" + Join(lines[1..], "\n");
    }
  }
}
