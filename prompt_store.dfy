/**
 * The editable prompt configuration of the current app: a system prompt
 * with a task placeholder, and per region a location phrase and per control
 * one wording per intensity. Each action computes the next configuration
 * from the current one; nothing is updated in place.
 */
module PromptStore {
  import opened Wrappers
  import JsRecord
  import opened EditText

  /** `ControlPromptConfig`: the wording per intensity; a control first created by an edit holds only that intensity. */
  type ControlPrompts = map<Intensity, string>

  /**
   * `RegionPromptConfig`. `controls` is absent for a region first created by
   * a location edit, which spreads an undefined region.
   */
  datatype RegionPrompts = RegionPrompts(location: string, controls: Option<map<string, ControlPrompts>>)

  /** `PromptConfig` */
  datatype PromptConfig = PromptConfig(systemPrompt: string, regions: map<string, RegionPrompts>)

  /** The `{TASK_PROMPT}` placeholder that the edit prompt replaces. */
  const TaskPlaceholder: string := "{TASK_PROMPT}"

  const SystemIntro: string :=
    "Edit this face photograph. You MUST modify the image and return a new version with the changes applied. Do NOT return the original image unchanged."
  const SystemRules: string :=
    "RULES:\n- You MUST apply the changes described above. The output MUST look visibly different from the input.\n"
    + "- Keep the person's identity recognizable — same person, same background, same hair, same clothing.\n"
    + "- Only modify the specific facial area mentioned above.\n"
    + "- The result must be photorealistic, as if the person actually had this cosmetic procedure.\n"
    + "- Return ONLY the edited photograph as an image."

  const DefaultSystemPrompt: string := SystemIntro + "\n\n" + TaskPlaceholder + "\n\n" + SystemRules

  /** The four intensities. */
  const AllLevels: set<Intensity> := {Slight, Noticeable, Significant, Dramatic}

  /** A control's four wordings as its prompt record. */
  function PromptsOf(w: Wording): (prompts: ControlPrompts)
    ensures prompts.Keys == AllLevels
    ensures forall level :: level in prompts ==> prompts[level] == w.At(level)
  {
    map[Slight := w.slight, Noticeable := w.noticeable, Significant := w.significant, Dramatic := w.dramatic]
  }

  /** A region's controls with their wordings, as prompt records. */
  function ControlsOf(controls: JsRecord.Record<Wording>): (m: map<string, ControlPrompts>)
    ensures forall k :: k in m <==> k in JsRecord.Keys(controls)
    ensures forall k :: k in m ==> m[k].Keys == AllLevels
  {
    if controls == [] then map[]
    else
      var n := |controls| - 1;
      assert JsRecord.Keys(controls) == JsRecord.Keys(controls[..n]) + [controls[n].0];
      ControlsOf(controls[..n])[controls[n].0 := PromptsOf(controls[n].1)]
  }

  /** The default regions: each described region with its location phrase and its controls' four wordings. */
  function DefaultRegions(table: JsRecord.Record<JsRecord.Record<Wording>>): map<string, RegionPrompts>
    requires forall i :: 0 <= i < |table| ==> table[i].0 in RegionLocation
  {
    if table == [] then map[]
    else
      var n := |table| - 1;
      DefaultRegions(table[..n])[table[n].0 := RegionPrompts(RegionLocation[table[n].0], Some(ControlsOf(table[n].1)))]
  }

  /** `DEFAULT_PROMPTS` */
  function DefaultPrompts(): (c: PromptConfig)
    ensures c.systemPrompt == DefaultSystemPrompt
    ensures forall r :: r in c.regions <==> r in JsRecord.Keys(Descriptions)
    ensures forall r :: r in c.regions ==>
      && c.regions[r].location == RegionLocation[r]
      && c.regions[r].controls.Some?
      && forall k :: k in c.regions[r].controls.value ==> c.regions[r].controls.value[k].Keys == AllLevels
  {
    TableIsWellFormed();
    DefaultRegionsFollowTable(Descriptions);
    DefaultControlsAreComplete(Descriptions);
    PromptConfig(DefaultSystemPrompt, DefaultRegions(Descriptions))
  }

  /** `setSystemPrompt`: only the system prompt changes. */
  function SetSystemPrompt(c: PromptConfig, prompt: string): (c': PromptConfig)
    ensures c'.systemPrompt == prompt && c'.regions == c.regions
  {
    c.(systemPrompt := prompt)
  }

  /**
   * `setRegionLocation`: the region's location becomes `location`; its
   * controls are kept (absent when the region did not exist); every other
   * region and the system prompt are unchanged.
   */
  function SetRegionLocation(c: PromptConfig, region: string, location: string): (c': PromptConfig)
    ensures c'.systemPrompt == c.systemPrompt
    ensures c'.regions.Keys == c.regions.Keys + {region}
    ensures c'.regions[region].location == location
    ensures c'.regions[region].controls == if region in c.regions then c.regions[region].controls else None
    ensures forall r :: r in c.regions && r != region ==> c'.regions[r] == c.regions[r]
  {
    var controls := if region in c.regions then c.regions[region].controls else None;
    c.(regions := c.regions[region := RegionPrompts(location, controls)])
  }

  /** The region exists and has a controls record, as `setControlPrompt` dereferences both. */
  predicate HasControls(c: PromptConfig, region: string) {
    region in c.regions && c.regions[region].controls.Some?
  }

  /**
   * `setControlPrompt`: only the wording of `intensity` for `control` in
   * `region` changes (the control is created when missing); the control's
   * other wordings, the region's other controls and location, the other
   * regions and the system prompt are unchanged.
   */
  function SetControlPrompt(c: PromptConfig, region: string, control: string, intensity: Intensity, prompt: string)
    : (c': PromptConfig)
    requires HasControls(c, region)
    ensures c'.systemPrompt == c.systemPrompt
    ensures c'.regions.Keys == c.regions.Keys
    ensures forall r :: r in c.regions && r != region ==> c'.regions[r] == c.regions[r]
    ensures HasControls(c', region) && c'.regions[region].location == c.regions[region].location
    ensures var before := c.regions[region].controls.value;
      var after := c'.regions[region].controls.value;
      && after.Keys == before.Keys + {control}
      && intensity in after[control] && after[control][intensity] == prompt
      && (forall k :: k in before && k != control ==> after[k] == before[k])
      && (forall i :: i != intensity ==> (i in after[control] <==> control in before && i in before[control]))
      && (forall i :: i != intensity && i in after[control] ==> after[control][i] == before[control][i])
  {
    var regionConfig := c.regions[region];
    var controls' := SetWording(regionConfig.controls.value, control, intensity, prompt);
    c.(regions := c.regions[region := regionConfig.(controls := Some(controls'))])
  }

  /** `{ ...controls, [control]: { ...controls[control], [intensity]: prompt } }` */
  function SetWording(controls: map<string, ControlPrompts>, control: string, intensity: Intensity, prompt: string)
    : map<string, ControlPrompts>
  {
    var prompts := if control in controls then controls[control] else map[];
    controls[control := prompts[intensity := prompt]]
  }

  /** `resetToDefaults` */
  function ResetToDefaults(c: PromptConfig): (c': PromptConfig)
    ensures c' == DefaultPrompts()
  {
    DefaultPrompts()
  }

  /** Setting the same wording twice is the same as setting it once. */
  lemma SetControlPromptIdempotent(c: PromptConfig, region: string, control: string, intensity: Intensity, prompt: string)
    requires HasControls(c, region)
    ensures var once := SetControlPrompt(c, region, control, intensity, prompt);
      SetControlPrompt(once, region, control, intensity, prompt) == once
  {
    var controls := c.regions[region].controls.value;
    var once := SetWording(controls, control, intensity, prompt);
    assert SetWording(once, control, intensity, prompt) == once by {
      assert once[control][intensity := prompt] == once[control];
    }
  }

  /** Setting the location or the system prompt twice is the same as setting it once. */
  lemma OtherSettersIdempotent(c: PromptConfig, region: string, location: string, prompt: string)
    ensures SetRegionLocation(SetRegionLocation(c, region, location), region, location) == SetRegionLocation(c, region, location)
    ensures SetSystemPrompt(SetSystemPrompt(c, prompt), prompt) == SetSystemPrompt(c, prompt)
  {
    var once := SetRegionLocation(c, region, location);
    assert once.regions[region := once.regions[region]] == once.regions;
  }

  /** Wording edits at different (control, intensity) keys of one controls record commute. */
  lemma SetWordingsCommute(controls: map<string, ControlPrompts>, k1: string, i1: Intensity, p1: string,
                           k2: string, i2: Intensity, p2: string)
    requires (k1, i1) != (k2, i2)
    ensures SetWording(SetWording(controls, k1, i1, p1), k2, i2, p2)
         == SetWording(SetWording(controls, k2, i2, p2), k1, i1, p1)
  {
    var a := SetWording(SetWording(controls, k1, i1, p1), k2, i2, p2);
    var b := SetWording(SetWording(controls, k2, i2, p2), k1, i1, p1);
    if k1 == k2 {
      assert a[k1] == b[k1];
    }
    assert a.Keys == b.Keys;
  }

  /** Wording edits at different (region, control, intensity) keys commute. */
  lemma SetControlPromptsCommute(c: PromptConfig, r1: string, k1: string, i1: Intensity, p1: string,
                                 r2: string, k2: string, i2: Intensity, p2: string)
    requires HasControls(c, r1) && HasControls(c, r2)
    requires (r1, k1, i1) != (r2, k2, i2)
    ensures SetControlPrompt(SetControlPrompt(c, r1, k1, i1, p1), r2, k2, i2, p2)
         == SetControlPrompt(SetControlPrompt(c, r2, k2, i2, p2), r1, k1, i1, p1)
  {
    var a := SetControlPrompt(SetControlPrompt(c, r1, k1, i1, p1), r2, k2, i2, p2);
    var b := SetControlPrompt(SetControlPrompt(c, r2, k2, i2, p2), r1, k1, i1, p1);
    if r1 == r2 {
      SetWordingsCommute(c.regions[r1].controls.value, k1, i1, p1, k2, i2, p2);
      assert a.regions[r1] == b.regions[r1];
    } else {
      assert a.regions[r1] == b.regions[r1];
      assert a.regions[r2] == b.regions[r2];
    }
    assert a.regions == b.regions;
  }

  /** The default system prompt carries the `{TASK_PROMPT}` placeholder. */
  lemma DefaultSystemPromptHasPlaceholder()
    ensures var i := |SystemIntro| + 2;
      i + |TaskPlaceholder| <= |DefaultSystemPrompt| && DefaultSystemPrompt[i..i + |TaskPlaceholder|] == TaskPlaceholder
  {
    var i := |SystemIntro + "\n\n"|;
    assert DefaultSystemPrompt == (SystemIntro + "\n\n") + TaskPlaceholder + ("\n\n" + SystemRules);
    assert DefaultSystemPrompt[i..i + |TaskPlaceholder|] == TaskPlaceholder;
  }

  /** Every default region has controls, and every default control defines all four intensities. */
  lemma {:induction false} DefaultControlsAreComplete(table: JsRecord.Record<JsRecord.Record<Wording>>)
    requires forall i :: 0 <= i < |table| ==> table[i].0 in RegionLocation
    ensures forall r :: r in DefaultRegions(table) ==>
      DefaultRegions(table)[r].controls.Some? &&
      forall k :: k in DefaultRegions(table)[r].controls.value ==> DefaultRegions(table)[r].controls.value[k].Keys == AllLevels
  {
    if table != [] {
      DefaultControlsAreComplete(table[..|table| - 1]);
    }
  }

  /** The default regions are exactly the described ones, each with its location phrase. */
  lemma {:induction false} DefaultRegionsFollowTable(table: JsRecord.Record<JsRecord.Record<Wording>>)
    requires forall i :: 0 <= i < |table| ==> table[i].0 in RegionLocation
    ensures forall r :: r in DefaultRegions(table) <==> r in JsRecord.Keys(table)
    ensures forall r :: r in DefaultRegions(table) ==> DefaultRegions(table)[r].location == RegionLocation[r]
  {
    if table != [] {
      var n := |table| - 1;
      DefaultRegionsFollowTable(table[..n]);
      assert JsRecord.Keys(table) == JsRecord.Keys(table[..n]) + [table[n].0];
    }
  }
}
