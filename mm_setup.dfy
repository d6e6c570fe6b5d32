/**
 * The Micro-Manager set-up rules of the acquisition widget: which config
 * group holds the calibration states, which presets count as bright-field,
 * which liquid-crystal control mode is chosen at connect and whether the
 * presets agree with it, the background-correction option and the fields an
 * acquisition needs.
 *
 * Micro-Manager itself is out of reach: its config groups and presets, the
 * verbose description of a preset and whether the LC device adapter is
 * loaded are parameters.
 */
module MmSetup {
  import opened Common

  /** Substrings that mark a preset as a bright-field channel, compared case-insensitively. */
  const BfKeywords: seq<string> :=
    ["bf", "brightfield", "bright", "labelfree", "label-free", "lf", "label", "phase", "ph"]

  /** The preset names calibration drives. */
  const CalibChannels: seq<string> := ["State0", "State1", "State2", "State3", "State4"]

  /** The line edits a phase acquisition needs filled in. */
  const PhaseRequired: set<string> :=
    {"recon_wavelength", "wavelength", "mag", "cond_na", "obj_na", "n_media", "phase_strength", "ps", "zstep"}

  /** A config group qualifies when every calibration state is a substring of one of its presets. */
  predicate Qualifies(presets: seq<string>, channels: seq<string>) {
    forall c :: 0 <= c < |channels| ==>
      exists j :: 0 <= j < |presets| && Contains(presets[j], channels[c])
  }

  /** A preset is bright-field when some keyword occurs in it, ignoring ASCII case. */
  predicate IsBrightField(preset: string) {
    exists k :: 0 <= k < |BfKeywords| && Contains(Lower(preset), Lower(BfKeywords[k]))
  }

  /** The qualifying group names, in enumeration order. */
  function QualifyingGroups(groups: seq<(string, seq<string>)>, channels: seq<string>): (r: seq<string>)
    ensures |r| <= |groups|
    decreases |groups|
  {
    if groups == [] then []
    else (if Qualifies(groups[0].1, channels) then [groups[0].0] else []) + QualifyingGroups(groups[1..], channels)
  }

  /** The bright-field presets of a list of presets, in order. */
  function BfFilter(presets: seq<string>): (r: seq<string>)
    ensures |r| <= |presets|
    decreases |presets|
  {
    if presets == [] then []
    else (if IsBrightField(presets[0]) then [presets[0]] else []) + BfFilter(presets[1..])
  }

  /** The bright-field presets of every group, qualifying or not, in enumeration order. */
  function BfPresets(groups: seq<(string, seq<string>)>): seq<string>
    decreases |groups|
  {
    if groups == [] then [] else BfFilter(groups[0].1) + BfPresets(groups[1..])
  }

  /** The LC control mode chosen at connect from the description of preset Channel/State0. */
  function ModeAtConnect(current: string, lcLoaded: bool, desc: string): (mode: string)
    ensures !lcLoaded ==> mode == "DAC"
    ensures lcLoaded && Contains(desc, "Voltage (V)") ==> mode == "MM-Voltage"
    ensures lcLoaded && !Contains(desc, "Voltage (V)") && Contains(desc, "String send to") ==> mode == "MM-Retardance"
    ensures lcLoaded && !Contains(desc, "Voltage (V)") && !Contains(desc, "String send to") ==> mode == current
  {
    if !lcLoaded then "DAC"
    else
      var afterString := if Contains(desc, "String send to") then "MM-Retardance" else current;
      if Contains(desc, "Voltage (V)") then "MM-Voltage" else afterString
  }

  /** What `_check_MM_config_setup` does: nothing, or a warning. */
  datatype Check = Quiet | Warn

  predicate AllContain(descs: seq<string>, needle: string) {
    forall i :: 0 <= i < |descs| ==> Contains(descs[i], needle)
  }

  predicate NoneContain(descs: seq<string>, needle: string) {
    forall i :: 0 <= i < |descs| ==> !Contains(descs[i], needle)
  }

  /**
   * `_check_MM_config_setup` on the descriptions of the calibration presets:
   * each mode has its own consistency rule, and an unknown mode raises ValueError.
   */
  function ConfigCheck(mode: string, descs: seq<string>, lcLoaded: bool): (r: Result<Check>)
    ensures r.Err? <==> mode !in {"MM-Retardance", "MM-Voltage", "DAC"}
    ensures r.Err? ==> r.error == ValueError
    ensures mode == "DAC" ==> r == Ok(if lcLoaded then Warn else Quiet)
  {
    if mode == "MM-Retardance" then
      Ok(if AllContain(descs, "String send to") && NoneContain(descs, "Voltage (V)") then Quiet else Warn)
    else if mode == "MM-Voltage" then
      Ok(if AllContain(descs, "Voltage (V) LC-A") && AllContain(descs, "Voltage (V) LC-B") &&
            NoneContain(descs, "String send to")
         then Quiet else Warn)
    else if mode == "DAC" then Ok(if lcLoaded then Warn else Quiet)
    else Err(ValueError)
  }

  /** `enter_bg_correction`: combo index to option; other indices leave the option alone. */
  function BgOption(index: int, current: string): (r: string)
    ensures 0 <= index <= 3 ==> r == ["None", "global", "local_fit", "local_fit+"][index]
    ensures !(0 <= index <= 3) ==> r == current
  {
    if index == 0 then "None"
    else if index == 1 then "global"
    else if index == 2 then "local_fit"
    else if index == 3 then "local_fit+"
    else current
  }

  /** Whether `enter_bg_correction` shows the background path field for a combo index, or leaves it. */
  function BgPathShown(index: int, current: bool): bool {
    if index == 1 || index == 3 then true
    else if index == 0 || index == 2 then false
    else current
  }

  predicate NeedsBgPath(option: string) {
    option == "local_fit+" || option == "global"
  }

  /** The line edits `_check_requirements_for_acq` tests for a mode and background option. */
  function RequiredFields(mode: string, option: string): (r: set<string>)
    ensures "bg_path" in r <==> (mode == "birefringence" || mode == "phase") && NeedsBgPath(option)
    ensures "save_dir" in r <==> mode == "birefringence" || mode == "phase"
    ensures PhaseRequired <= r <==> mode == "phase"
  {
    assert "recon_wavelength" in PhaseRequired;
    (if mode == "birefringence" || mode == "phase" then
       {"save_dir"} + (if NeedsBgPath(option) then {"bg_path"} else {})
     else {}) +
    (if mode == "phase" then PhaseRequired else {})
  }

  /** The states `enter_config_group` reports missing, in the order of `CalibChannels`. */
  function MissingStates(presets: seq<string>, states: seq<string>): (r: seq<string>)
    ensures |r| <= |states|
    decreases |states|
  {
    if states == [] then []
    else (if states[0] !in presets then [states[0]] else []) + MissingStates(presets, states[1..])
  }

  // ---------------------------------------------------------------------------
  // The widget state these rules update

  class MmWidget {
    var configGroup: string
    var groupItems: seq<string>      // the config group combo box
    var acqChannels: seq<string>     // the bright-field channel combo box
    var bfChannelFound: bool
    var calibMode: string
    var bgOption: string
    var bgPathShown: bool
    var redFields: set<string>       // line edits with a red border

    constructor ()
      ensures configGroup == "Channel" && calibMode == "MM-Retardance" && bgOption == "None"
      ensures groupItems == [] && acqChannels == [] && !bfChannelFound && !bgPathShown && redFields == {}
    {
      configGroup := "Channel";
      groupItems := [];
      acqChannels := [];
      bfChannelFound := false;
      calibMode := "MM-Retardance";
      bgOption := "None";
      bgPathShown := false;
      redFields := {};
    }

    /**
     * The config-group part of `connect_to_mm`, then the LC mode: `groups` are
     * the config groups with their presets, `lcLoaded` tells whether the LC
     * device adapter is loaded and `desc` is the description of Channel/State0.
     */
    method Connect(groups: seq<(string, seq<string>)>, lcLoaded: bool, desc: string) returns (o: Outcome)
      modifies this
      ensures var q := QualifyingGroups(groups, CalibChannels);
        groupItems == old(groupItems) + q &&
        configGroup == (if q != [] then q[0] else old(configGroup)) &&
        acqChannels == old(acqChannels) + BfPresets(groups) &&
        bfChannelFound == (old(bfChannelFound) || BfPresets(groups) != [])
      ensures o == (if QualifyingGroups(groups, CalibChannels) == [] then Fail(KeyError) else Pass)
      ensures calibMode == if o.Fail? then old(calibMode) else ModeAtConnect(old(calibMode), lcLoaded, desc)
      ensures bgOption == old(bgOption) && bgPathShown == old(bgPathShown) && redFields == old(redFields)
    {
      var found, first, items, channels := ScanGroups(groups, CalibChannels);
      if found {
        configGroup := first;
      }
      groupItems := groupItems + items;
      acqChannels := acqChannels + channels;
      bfChannelFound := bfChannelFound || channels != [];
      if !found {
        return Fail(KeyError);
      }
      calibMode := ModeAtConnect(calibMode, lcLoaded, desc);
      o := Pass;
    }

    /**
     * `enter_config_group`: with an empty combo box nothing happens; otherwise
     * the chosen group becomes `config_group` and every missing state, by
     * exact name, raises KeyError.
     */
    method EnterConfigGroup(count: nat, chosen: string, presets: seq<string>) returns (o: Outcome)
      modifies this
      ensures count == 0 ==> configGroup == old(configGroup) && o == Pass
      ensures count != 0 ==> configGroup == chosen
      ensures count != 0 ==> (o == Fail(KeyError) <==> MissingStates(presets, CalibChannels) != [])
      ensures o == Pass || o == Fail(KeyError)
      ensures groupItems == old(groupItems) && calibMode == old(calibMode) && bgOption == old(bgOption)
      ensures acqChannels == old(acqChannels) && bfChannelFound == old(bfChannelFound)
      ensures bgPathShown == old(bgPathShown) && redFields == old(redFields)
    {
      if count == 0 {
        return Pass;
      }
      configGroup := chosen;
      var missing := CollectMissing(presets, CalibChannels);
      o := if |missing| != 0 then Fail(KeyError) else Pass;
    }

    /** `enter_bg_correction`. */
    method EnterBgCorrection(index: int)
      modifies this
      ensures bgOption == BgOption(index, old(bgOption))
      ensures bgPathShown == BgPathShown(index, old(bgPathShown))
      ensures configGroup == old(configGroup) && calibMode == old(calibMode) && redFields == old(redFields)
      ensures groupItems == old(groupItems) && acqChannels == old(acqChannels) && bfChannelFound == old(bfChannelFound)
    {
      bgOption := BgOption(index, bgOption);
      bgPathShown := BgPathShown(index, bgPathShown);
    }

    /**
     * `_check_requirements_for_acq`: no calibration raises RuntimeError;
     * otherwise every required line edit is checked, an empty one is marked
     * red and a filled one cleared (the phase fields are cleared first), and
     * any empty one raises ValueError.  `text` gives each line edit's text.
     */
    method CheckRequirementsForAcq(mode: string, calibrated: bool, text: string -> string) returns (o: Outcome)
      modifies this
      ensures !calibrated ==> o == Fail(RuntimeError) && redFields == old(redFields)
      ensures calibrated ==>
        var req := RequiredFields(mode, bgOption);
        redFields == (old(redFields) - PhaseRequired - req) + EmptyFields(req, text) &&
        (o == Fail(ValueError) <==> EmptyFields(req, text) != {}) &&
        (o == Pass <==> EmptyFields(req, text) == {})
      ensures bgOption == old(bgOption) && configGroup == old(configGroup) && calibMode == old(calibMode)
      ensures groupItems == old(groupItems) && acqChannels == old(acqChannels) && bfChannelFound == old(bfChannelFound)
      ensures bgPathShown == old(bgPathShown)
    {
      if !calibrated {
        return Fail(RuntimeError);
      }
      var req := RequiredFields(mode, bgOption);
      var empty, red := TestFields(req, redFields - PhaseRequired, text);
      redFields := red;
      o := if empty != {} then Fail(ValueError) else Pass;
    }
  }

  /** The required fields whose text is empty. */
  function EmptyFields(fields: set<string>, text: string -> string): (r: set<string>)
  {
    set f | f in fields && text(f) == ""
  }

  /**
   * The loop over the required line edits: an empty one is marked red and
   * remembered, a filled one is cleared.
   */
  method TestFields(req: set<string>, red0: set<string>, text: string -> string)
    returns (empty: set<string>, red: set<string>)
    ensures empty == EmptyFields(req, text)
    ensures red == (red0 - req) + empty
  {
    red := red0;
    var rest := req;
    empty := {};
    ghost var done: set<string> := {};
    while rest != {}
      invariant done + rest == req && done !! rest
      invariant empty == EmptyFields(done, text)
      invariant forall f :: f in red <==> (f in red0 && f !in done) || f in empty
      decreases rest
    {
      var field := Pick(rest);
      if text(field) == "" {
        empty := empty + {field};
        red := red + {field};
      } else {
        red := red - {field};
      }
      rest := rest - {field};
      done := done + {field};
    }
    assert red == (red0 - req) + empty;
  }

  /** Some element of a non-empty set; which one is left open, as Python's set order is. */
  method Pick(s: set<string>) returns (x: string)
    requires s != {}
    ensures x in s
  {
    x :| x in s;
  }

  /** The loop of `connect_to_mm` over the config groups. */
  method ScanGroups(groups: seq<(string, seq<string>)>, channels: seq<string>)
    returns (found: bool, first: string, items: seq<string>, bf: seq<string>)
    ensures items == QualifyingGroups(groups, channels)
    ensures found <==> items != []
    ensures found ==> first == items[0]
    ensures bf == BfPresets(groups)
  {
    found, first, items, bf := false, "", [], [];
    var k := 0;
    while k < |groups|
      invariant 0 <= k <= |groups|
      invariant items + QualifyingGroups(groups[k..], channels) == QualifyingGroups(groups, channels)
      invariant bf + BfPresets(groups[k..]) == BfPresets(groups)
      invariant found <==> items != []
      invariant found ==> first == items[0]
    {
      assert groups[k..][1..] == groups[k + 1..];
      var (group, presets) := groups[k];
      if Qualifies(presets, channels) {
        if !found {
          first := group;
          found := true;
        }
        items := items + [group];
      }
      var named := CollectBf(presets);
      bf := bf + named;
      k := k + 1;
    }
  }

  /** The inner loop: the bright-field presets of one group. */
  method CollectBf(presets: seq<string>) returns (bf: seq<string>)
    ensures bf == BfFilter(presets)
  {
    bf := [];
    var j := 0;
    while j < |presets|
      invariant 0 <= j <= |presets|
      invariant bf + BfFilter(presets[j..]) == BfFilter(presets)
    {
      assert presets[j..][1..] == presets[j + 1..];
      if IsBrightField(presets[j]) {
        bf := bf + [presets[j]];
      }
      j := j + 1;
    }
  }

  /** The loop of `enter_config_group` collecting the missing states. */
  method CollectMissing(presets: seq<string>, states: seq<string>) returns (missing: seq<string>)
    ensures missing == MissingStates(presets, states)
  {
    missing := [];
    var i := 0;
    while i < |states|
      invariant 0 <= i <= |states|
      invariant missing + MissingStates(presets, states[i..]) == MissingStates(presets, states)
    {
      assert states[i..][1..] == states[i + 1..];
      if states[i] !in presets {
        missing := missing + [states[i]];
      }
      i := i + 1;
    }
  }

  // ---------------------------------------------------------------------------
  // Properties

  /** A group name is offered exactly when some group of that name qualifies. */
  lemma {:induction false} QualifyingGroupsMembers(groups: seq<(string, seq<string>)>, channels: seq<string>, g: string)
    ensures g in QualifyingGroups(groups, channels) <==>
      exists i :: 0 <= i < |groups| && groups[i].0 == g && Qualifies(groups[i].1, channels)
    decreases |groups|
  {
    if groups != [] {
      QualifyingGroupsMembers(groups[1..], channels, g);
      if exists i :: 0 <= i < |groups[1..]| && groups[1..][i].0 == g && Qualifies(groups[1..][i].1, channels) {
        var i :| 0 <= i < |groups[1..]| && groups[1..][i].0 == g && Qualifies(groups[1..][i].1, channels);
        assert groups[i + 1] == groups[1..][i];
      }
      if exists i :: 0 <= i < |groups| && groups[i].0 == g && Qualifies(groups[i].1, channels) {
        var i :| 0 <= i < |groups| && groups[i].0 == g && Qualifies(groups[i].1, channels);
        if i > 0 {
          assert groups[1..][i - 1] == groups[i];
        }
      }
    }
  }

  /** The group chosen at connect is the first qualifying one in enumeration order. */
  lemma {:induction false} FirstQualifying(groups: seq<(string, seq<string>)>, channels: seq<string>)
    requires QualifyingGroups(groups, channels) != []
    ensures exists i :: 0 <= i < |groups| && groups[i].0 == QualifyingGroups(groups, channels)[0] &&
                        Qualifies(groups[i].1, channels) && forall j :: 0 <= j < i ==> !Qualifies(groups[j].1, channels)
    decreases |groups|
  {
    if Qualifies(groups[0].1, channels) {
      assert groups[0].0 == QualifyingGroups(groups, channels)[0];
    } else {
      assert QualifyingGroups(groups, channels) == QualifyingGroups(groups[1..], channels);
      FirstQualifying(groups[1..], channels);
      var i :| 0 <= i < |groups[1..]| && groups[1..][i].0 == QualifyingGroups(groups[1..], channels)[0] &&
        Qualifies(groups[1..][i].1, channels) && forall j :: 0 <= j < i ==> !Qualifies(groups[1..][j].1, channels);
      assert groups[i + 1] == groups[1..][i];
      forall j | 0 <= j < i + 1
        ensures !Qualifies(groups[j].1, channels)
      {
        if j > 0 {
          assert groups[j] == groups[1..][j - 1];
        }
      }
    }
  }

  /** Connect fails with KeyError exactly when no group qualifies. */
  lemma NoGroupNoConnect(groups: seq<(string, seq<string>)>, channels: seq<string>)
    ensures QualifyingGroups(groups, channels) == [] <==> forall i :: 0 <= i < |groups| ==> !Qualifies(groups[i].1, channels)
  {
    if QualifyingGroups(groups, channels) != [] {
      FirstQualifying(groups, channels);
    } else {
      forall i | 0 <= i < |groups|
        ensures !Qualifies(groups[i].1, channels)
      {
        QualifyingGroupsMembers(groups, channels, groups[i].0);
      }
    }
  }

  /** The bright-field list holds the bright-field presets of every group, qualifying or not. */
  lemma {:induction false} BfPresetsMembers(groups: seq<(string, seq<string>)>, x: string)
    ensures x in BfPresets(groups) <==>
      IsBrightField(x) && exists i :: 0 <= i < |groups| && x in groups[i].1
    decreases |groups|
  {
    if groups != [] {
      BfPresetsMembers(groups[1..], x);
      BfFilterMembers(groups[0].1, x);
      if exists i :: 0 <= i < |groups| && x in groups[i].1 {
        var i :| 0 <= i < |groups| && x in groups[i].1;
        if i > 0 {
          assert groups[1..][i - 1] == groups[i];
        }
      }
      if exists i :: 0 <= i < |groups[1..]| && x in groups[1..][i].1 {
        var i :| 0 <= i < |groups[1..]| && x in groups[1..][i].1;
        assert groups[i + 1] == groups[1..][i];
      }
    }
  }

  lemma {:induction false} BfFilterMembers(presets: seq<string>, x: string)
    ensures x in BfFilter(presets) <==> x in presets && IsBrightField(x)
    decreases |presets|
  {
    if presets != [] {
      BfFilterMembers(presets[1..], x);
      assert presets == [presets[0]] + presets[1..];
    }
  }

  /** The missing states are exactly the states that are not a preset. */
  lemma {:induction false} MissingStatesMembers(presets: seq<string>, states: seq<string>, s: string)
    ensures s in MissingStates(presets, states) <==> s in states && s !in presets
    decreases |states|
  {
    if states != [] {
      MissingStatesMembers(presets, states[1..], s);
      assert states == [states[0]] + states[1..];
    }
  }

  /** Exact membership of every state implies the substring rule; the converse fails. */
  lemma ExactImpliesQualifies(presets: seq<string>, states: seq<string>)
    requires MissingStates(presets, states) == []
    ensures Qualifies(presets, states)
  {
    forall c | 0 <= c < |states|
      ensures exists j :: 0 <= j < |presets| && Contains(presets[j], states[c])
    {
      var state := states[c];
      MissingStatesMembers(presets, states, state);
      var j :| 0 <= j < |presets| && presets[j] == state;
      assert Occurs(presets[j], state, 0);
      ContainsAt(presets[j], state, 0);
    }
  }

  /**
   * A group whose presets carry a prefix, such as `LF-State0` ... `LF-State4`,
   * qualifies at connect, and choosing it raises KeyError: every state is
   * missing by exact name. The states share one length, as the calibration
   * states do.
   */
  lemma PrefixedStatesRejected(prefix: string, states: seq<string>, n: nat)
    requires prefix != []
    requires forall c :: 0 <= c < |states| ==> |states[c]| == n
    ensures Qualifies(Prefixed(prefix, states), states)
    ensures MissingStates(Prefixed(prefix, states), states) == states
  {
    var presets := Prefixed(prefix, states);
    forall c | 0 <= c < |states|
      ensures exists j :: 0 <= j < |presets| && Contains(presets[j], states[c])
    {
      PrefixedContains(prefix, states[c]);
      assert presets[c] == prefix + states[c];
    }
    forall c | 0 <= c < |states|
      ensures states[c] !in presets
    {
      assert forall j :: 0 <= j < |presets| ==> |presets[j]| == |prefix| + n;
    }
    MissingAll(presets, states);
  }

  /** The label-free spelling of the calibration states. */
  lemma LabelFreeStatesRejected(lf: string)
    requires lf == "LF-"
    ensures Qualifies(Prefixed(lf, CalibChannels), CalibChannels)
    ensures MissingStates(Prefixed(lf, CalibChannels), CalibChannels) == CalibChannels
  {
    CalibLengths();
    PrefixedStatesRejected(lf, CalibChannels, 6);
  }

  lemma CalibLengths()
    ensures forall c :: 0 <= c < |CalibChannels| ==> |CalibChannels[c]| == 6
  {
  }

  function Prefixed(prefix: string, names: seq<string>): (r: seq<string>)
    ensures |r| == |names| && forall i :: 0 <= i < |names| ==> r[i] == prefix + names[i]
  {
    seq(|names|, i requires 0 <= i < |names| => prefix + names[i])
  }

  lemma PrefixedContains(prefix: string, s: string)
    ensures Contains(prefix + s, s)
  {
    assert (prefix + s)[|prefix|..|prefix| + |s|] == s;
    ContainsAt(prefix + s, s, |prefix|);
  }

  lemma {:induction false} MissingAll(presets: seq<string>, states: seq<string>)
    requires forall c :: 0 <= c < |states| ==> states[c] !in presets
    ensures MissingStates(presets, states) == states
    decreases |states|
  {
    if states != [] {
      MissingAll(presets, states[1..]);
      assert [states[0]] + states[1..] == states;
    }
  }

  /** With the adapter absent the mode is DAC and the check stays quiet. */
  lemma DacConsistent(current: string, desc: string, descs: seq<string>)
    ensures ModeAtConnect(current, false, desc) == "DAC"
    ensures ConfigCheck(ModeAtConnect(current, false, desc), descs, false) == Ok(Quiet)
  {
  }

  /**
   * Presets written for retardance control (each sends a string, none sets a
   * voltage) make connect choose MM-Retardance, and the check then stays quiet.
   */
  lemma RetardanceConsistent(current: string, descs: seq<string>)
    requires |descs| > 0
    requires AllContain(descs, "String send to") && NoneContain(descs, "Voltage (V)")
    ensures ModeAtConnect(current, true, descs[0]) == "MM-Retardance"
    ensures ConfigCheck("MM-Retardance", descs, true) == Ok(Quiet)
  {
  }

  /**
   * Presets written for voltage control (both LC voltages, no string) make
   * connect choose MM-Voltage, and the check then stays quiet.
   */
  lemma VoltageConsistent(current: string, descs: seq<string>)
    requires |descs| > 0
    requires AllContain(descs, "Voltage (V) LC-A") && AllContain(descs, "Voltage (V) LC-B")
    requires NoneContain(descs, "String send to")
    ensures ModeAtConnect(current, true, descs[0]) == "MM-Voltage"
    ensures ConfigCheck("MM-Voltage", descs, true) == Ok(Quiet)
  {
    assert "Voltage (V) LC-A" == "Voltage (V)" + " LC-A";
    ContainsPrefix(descs[0], "Voltage (V)", " LC-A");
  }

  /** A description with both markers picks MM-Voltage, whose check then warns. */
  lemma MixedDescriptionWarns(current: string, descs: seq<string>)
    requires |descs| > 0 && Contains(descs[0], "String send to") && Contains(descs[0], "Voltage (V)")
    ensures ModeAtConnect(current, true, descs[0]) == "MM-Voltage"
    ensures ConfigCheck(ModeAtConnect(current, true, descs[0]), descs, true) == Ok(Warn)
  {
  }

  /**
   * The background path field is shown exactly for the options that make an
   * acquisition require it.
   */
  lemma BgPathShownWhenNeeded(index: int, option: string, shown: bool)
    requires 0 <= index <= 3
    ensures BgPathShown(index, shown) <==> NeedsBgPath(BgOption(index, option))
    ensures "bg_path" in RequiredFields("birefringence", BgOption(index, option)) <==> BgPathShown(index, shown)
  {
  }
}
