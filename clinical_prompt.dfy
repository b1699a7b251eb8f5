/**
 * The clinical prompt of the earlier app: for the four hand-worded regions
 * only their named controls are described; every other region describes
 * each positive control generically. The descriptions are joined into a
 * fixed instruction template that names the region.
 */
module ClinicalPrompt {
  import opened Wrappers
  import JsRecord
  import Seqs
  import opened Text
  import opened ClinicalTypes

  /** `controls.key && controls.key > 0`: present, non-zero and positive. */
  predicate IsPositive(controls: RegionControls, key: string) {
    var v := JsRecord.Get(controls, key);
    v.Some? && v.value > 0
  }

  /** The value of a positive control as a natural number. */
  function PositiveValue(controls: RegionControls, key: string): nat
    requires IsPositive(controls, key)
  {
    JsRecord.Get(controls, key).value
  }

  /** `(${v}%)` */
  function Percent(v: nat): string {
    " (" + NatToString(v) + "%)"
  }

  /** The lip volume phrase: below 30, below 60, or from 60 up. */
  function LipVolumePhrase(v: nat): (phrase: string)
    ensures v < 30 ==> phrase == "subtle hydration effect"
    ensures 30 <= v < 60 ==> phrase == "moderate natural volume enhancement"
    ensures 60 <= v ==> phrase == "bold augmentation with signficant fullness"
  {
    if v < 30 then "subtle hydration effect"
    else if v < 60 then "moderate natural volume enhancement"
    else "bold augmentation with signficant fullness"
  }

  /** The description of one named control when it is positive, otherwise nothing. */
  function Named(controls: RegionControls, key: string, phrase: string): seq<string> {
    if IsPositive(controls, key) then [phrase + Percent(PositiveValue(controls, key))] else []
  }

  /** The four regions with hand-written descriptions. */
  predicate IsHandWorded(region: SimulationRegion) {
    region == Lips || region == Jawline || region == Cheeks || region == Nose
  }

  /** The descriptions of a hand-worded region: only the named controls, in this fixed order. */
  function HandWorded(region: SimulationRegion, controls: RegionControls): seq<string>
    requires IsHandWorded(region)
  {
    match region
    case Lips =>
      (if IsPositive(controls, "volume")
       then [LipVolumePhrase(PositiveValue(controls, "volume")) + Percent(PositiveValue(controls, "volume"))]
       else [])
      + Named(controls, "projection", "forward projection of the vermillion border")
      + Named(controls, "definition", "crisp definition of the cupids bow and borders")
    case Jawline =>
      Named(controls, "definition", "sharpening of the mandibular border")
      + Named(controls, "contour", "contouring of the jaw angle")
    case Cheeks =>
      Named(controls, "volume", "restoration of midface volume")
      + Named(controls, "lift", "visible lifting effect of the cheekbones")
    case Nose =>
      Named(controls, "bridge_height", "straightening of the dorsal bridge")
      + Named(controls, "tip_projection", "refinement and projection of the nasal tip")
  }

  /** The generic description of an active entry: its key with the first '_' made a space. */
  function Generic(entry: (string, int)): string
    requires entry.1 > 0
  {
    ReplaceFirst(entry.0, '_', ' ') + " enhancement" + Percent(entry.1)
  }

  /** The entries whose value is positive, in entry order. */
  function ActiveEntries(controls: RegionControls): (active: RegionControls)
    ensures forall i :: 0 <= i < |active| ==> active[i].1 > 0
  {
    Seqs.Filter(controls, (e: (string, int)) => e.1 > 0)
  }

  /** There is no active entry exactly when no value is positive. */
  lemma NoActiveEntryIffNonePositive(controls: RegionControls)
    ensures ActiveEntries(controls) == [] <==> forall i :: 0 <= i < |controls| ==> controls[i].1 <= 0
  {
    var active := ActiveEntries(controls);
    if active != [] {
      assert active[0] in controls;
    }
  }

  /** One generic description per active entry, in order. */
  function GenericAll(active: RegionControls): (descriptions: seq<string>)
    requires forall i :: 0 <= i < |active| ==> active[i].1 > 0
    ensures |descriptions| == |active|
    ensures forall i :: 0 <= i < |active| ==> descriptions[i] == Generic(active[i])
  {
    if active == [] then [] else [Generic(active[0])] + GenericAll(active[1..])
  }

  /** The fixed instruction template around the region name and the change list. */
  function Template(region: string, changes: string): (prompt: string)
    ensures |prompt| == |TemplateHead(region)| + |changes| + |TemplateTail(region)|
    ensures prompt[..|TemplateHead(region)|] == TemplateHead(region)
    ensures prompt[|TemplateHead(region)|..|TemplateHead(region)| + |changes|] == changes
  {
    var head, tail := TemplateHead(region), TemplateTail(region);
    Text.ConcatParts(head, changes, tail);
    head + changes + tail
  }

  /** The prompt determines its change list: two prompts for one region differ when their change lists do. */
  lemma TemplateDeterminesChanges(region: string, changes: string, changes': string)
    requires Template(region, changes) == Template(region, changes')
    ensures changes == changes'
  {
  }

  /** The template up to the change list: the instruction, the objective and the region line. */
  function TemplateHead(region: string): string {
    "\n    SYSTEM INSTRUCTION: You are an expert medical aesthetic visualization engine.\n"
    + "    OBJECTIVE: Apply high-fidelity modifications to the " + region + " region of the provided face.\n"
    + "    \n    CLINICAL PARAMETERS:\n"
    + "    - Region: " + region + "\n"
    + "    - Changes: "
  }

  /** The template after the change list: the constraints, naming the region once more. */
  function TemplateTail(region: string): string {
    "\n"
    + "    \n    CRITICAL CONSTRAINTS:\n"
    + "    - Maintain 100% identity of the person (eyes, hair, skin tone, background).\n"
    + "    - ONLY modify the " + region + ". Do not touch other areas.\n"
    + "    - Photorealistic, clinical texturing. No beautification filters. \n"
    + "    - Ensure lighting consistency.\n  "
  }

  /** The descriptions a region's slider record produces. */
  function Descriptions(region: SimulationRegion, controls: RegionControls): (descriptions: seq<string>)
    ensures descriptions == [] <==>
      if IsHandWorded(region) then forall k :: k in NamedKeys(region) ==> !IsPositive(controls, k)
      else forall i :: 0 <= i < |controls| ==> controls[i].1 <= 0
  {
    if IsHandWorded(region) then
      HandWordedEmptyIff(region, controls);
      HandWorded(region, controls)
    else
      NoActiveEntryIffNonePositive(controls);
      GenericAll(ActiveEntries(controls))
  }

  /**
   * `buildClinicalPrompt`: nothing when the state has no record for the
   * region or no entry is positive; otherwise the template with the region's
   * descriptions joined by ", ".
   */
  method BuildClinicalPrompt(region: SimulationRegion, state: SimulationState) returns (prompt: Option<string>)
    ensures region !in state ==> prompt.None?
    ensures region in state ==>
      (prompt.None? <==> forall i :: 0 <= i < |state[region]| ==> state[region][i].1 <= 0)
    ensures prompt.Some? ==>
      prompt.value == Template(region.Name(), Join(Descriptions(region, state[region]), ", "))
  {
    if region !in state {
      return None;
    }
    var controls := state[region];
    var activeEntries := ActiveEntries(controls);
    NoActiveEntryIffNonePositive(controls);
    if |activeEntries| == 0 {
      return None;
    }
    var descriptions := DescriptionPasses(region, controls);
    var changeDescription := Join(descriptions, ", ");
    return Some(Template(region.Name(), changeDescription));
  }

  /** The hand-worded blocks followed by the generic fallback. */
  method DescriptionPasses(region: SimulationRegion, controls: RegionControls) returns (descriptions: seq<string>)
    ensures descriptions == Descriptions(region, controls)
  {
    var activeEntries := ActiveEntries(controls);
    descriptions := HandWordedPass(region, controls);
    descriptions := GenericPass(region, activeEntries, descriptions);
    if !IsHandWorded(region) {
      assert [] + GenericAll(activeEntries) == GenericAll(activeEntries);
    }
  }

  /** The four `if (region === ...)` blocks: the named controls of a hand-worded region, nothing for any other. */
  method HandWordedPass(region: SimulationRegion, controls: RegionControls) returns (descriptions: seq<string>)
    ensures descriptions == if IsHandWorded(region) then HandWorded(region, controls) else []
  {
    descriptions := [];
    match region {
      case Lips =>
        descriptions := LipVolumePass(controls);
        descriptions := descriptions + Named(controls, "projection", "forward projection of the vermillion border");
        descriptions := descriptions + Named(controls, "definition", "crisp definition of the cupids bow and borders");
      case Jawline =>
        descriptions := descriptions + Named(controls, "definition", "sharpening of the mandibular border");
        descriptions := descriptions + Named(controls, "contour", "contouring of the jaw angle");
      case Cheeks =>
        descriptions := descriptions + Named(controls, "volume", "restoration of midface volume");
        descriptions := descriptions + Named(controls, "lift", "visible lifting effect of the cheekbones");
      case Nose =>
        descriptions := descriptions + Named(controls, "bridge_height", "straightening of the dorsal bridge");
        descriptions := descriptions + Named(controls, "tip_projection", "refinement and projection of the nasal tip");
      case _ =>
    }
  }

  /** The lips' volume description, bucketed by value, when the volume is positive. */
  method LipVolumePass(controls: RegionControls) returns (descriptions: seq<string>)
    ensures descriptions == if IsPositive(controls, "volume")
      then [LipVolumePhrase(PositiveValue(controls, "volume")) + Percent(PositiveValue(controls, "volume"))]
      else []
  {
    descriptions := [];
    if IsPositive(controls, "volume") {
      var v := PositiveValue(controls, "volume");
      if v < 30 {
        descriptions := descriptions + ["subtle hydration effect" + Percent(v)];
      } else if v < 60 {
        descriptions := descriptions + ["moderate natural volume enhancement" + Percent(v)];
      } else {
        descriptions := descriptions + ["bold augmentation with signficant fullness" + Percent(v)];
      }
    }
  }

  /** The `activeEntries.forEach` fallback: a generic description per active entry, for the other regions only. */
  method GenericPass(region: SimulationRegion, activeEntries: RegionControls, prior: seq<string>)
    returns (descriptions: seq<string>)
    requires forall i :: 0 <= i < |activeEntries| ==> activeEntries[i].1 > 0
    ensures descriptions == if IsHandWorded(region) then prior else prior + GenericAll(activeEntries)
  {
    descriptions := prior;
    for i := 0 to |activeEntries|
      invariant descriptions == if IsHandWorded(region) then prior else prior + GenericAll(activeEntries[..i])
    {
      if !IsHandWorded(region) {
        descriptions := descriptions + [Generic(activeEntries[i])];
        assert GenericAll(activeEntries[..i + 1]) == GenericAll(activeEntries[..i]) + [Generic(activeEntries[i])] by {
          GenericAllSnoc(activeEntries[..i + 1]);
          assert activeEntries[..i + 1][..i] == activeEntries[..i];
        }
      }
    }
    assert activeEntries[..|activeEntries|] == activeEntries;
  }

  lemma {:induction false} GenericAllSnoc(active: RegionControls)
    requires active != [] && forall i :: 0 <= i < |active| ==> active[i].1 > 0
    ensures GenericAll(active) == GenericAll(active[..|active| - 1]) + [Generic(active[|active| - 1])]
    decreases |active|
  {
    if |active| > 1 {
      GenericAllSnoc(active[1..]);
      assert active[1..][..|active| - 2] == active[..|active| - 1][1..];
    }
  }

  /** For a hand-worded region only its named controls matter; any other key, such as the lips' `width`, is dropped. */
  lemma OnlyNamedControlsMatter(region: SimulationRegion, controls: RegionControls, controls': RegionControls)
    requires IsHandWorded(region)
    requires forall k :: k in NamedKeys(region) ==> JsRecord.Get(controls, k) == JsRecord.Get(controls', k)
    ensures Descriptions(region, controls) == Descriptions(region, controls')
  {
    match region
    case Lips =>
      assert "volume" in NamedKeys(region) && "projection" in NamedKeys(region) && "definition" in NamedKeys(region);
    case Jawline =>
      assert "definition" in NamedKeys(region) && "contour" in NamedKeys(region);
    case Cheeks =>
      assert "volume" in NamedKeys(region) && "lift" in NamedKeys(region);
    case Nose =>
      assert "bridge_height" in NamedKeys(region) && "tip_projection" in NamedKeys(region);
  }

  /** The control keys each hand-worded region describes. */
  function NamedKeys(region: SimulationRegion): set<string> {
    match region
    case Lips => {"volume", "projection", "definition"}
    case Jawline => {"definition", "contour"}
    case Cheeks => {"volume", "lift"}
    case Nose => {"bridge_height", "tip_projection"}
    case _ => {}
  }

  /**
   * A hand-worded region describes nothing exactly when none of its named
   * controls is positive; a positive unnamed key such as the lips' `width`
   * still leaves the change list empty.
   */
  lemma HandWordedEmptyIff(region: SimulationRegion, controls: RegionControls)
    requires IsHandWorded(region)
    ensures HandWorded(region, controls) == [] <==> forall k :: k in NamedKeys(region) ==> !IsPositive(controls, k)
  {
    match region
    case Lips =>
      assert HandWorded(region, controls) == [] <==>
        !IsPositive(controls, "volume") && !IsPositive(controls, "projection") && !IsPositive(controls, "definition");
    case Jawline =>
      assert HandWorded(region, controls) == [] <==> !IsPositive(controls, "definition") && !IsPositive(controls, "contour");
    case Cheeks =>
      assert HandWorded(region, controls) == [] <==> !IsPositive(controls, "volume") && !IsPositive(controls, "lift");
    case Nose =>
      assert HandWorded(region, controls) == [] <==> !IsPositive(controls, "bridge_height") && !IsPositive(controls, "tip_projection");
  }
}
