/**
 * The gradient picker: a list of at least two colour stops, the CSS
 * gradient built from it, and the presets.
 */
module GradientPicker {
  import opened Strings
  import opened Sequences

  datatype GradientType = Linear | Radial

  datatype Preset = Preset(name: string, value: string)

  /** The text in front of the comma-joined stops. */
  function Opening(kind: GradientType, direction: string): string {
    match kind
    case Linear => "linear-gradient(" + direction + ", "
    case Radial => "radial-gradient(circle, "
  }

  /** `updateGradient`'s CSS: the opening, the stops joined with ", " in order, and a closing parenthesis. */
  function Css(kind: GradientType, direction: string, stops: seq<string>): (css: string)
    ensures |css| > |Opening(kind, direction)|
    ensures css[..|Opening(kind, direction)|] == Opening(kind, direction)
    ensures css[|css| - 1] == ')'
  {
    Opening(kind, direction) + Join(stops, ", ") + ")"
  }

  lemma StripAffixes(p: string, x: string, y: string, q: string)
    requires p + x + q == p + y + q
    ensures x == y
  {
    var s := p + x + q;
    assert |x| == |y|;
    assert x == s[|p|..|p| + |x|];
    assert y == (p + y + q)[|p|..|p| + |y|];
  }

  /**
   * The CSS loses nothing: of two gradients of the same kind and direction
   * whose stops contain no comma, equal CSS means equal stops.
   */
  lemma CssDeterminesStops(kind: GradientType, direction: string, a: seq<string>, b: seq<string>)
    requires |a| >= 1 && |b| >= 1 && Avoids(a, ',') && Avoids(b, ',')
    requires Css(kind, direction, a) == Css(kind, direction, b)
    ensures a == b
  {
    StripAffixes(Opening(kind, direction), Join(a, ", "), Join(b, ", "), ")");
    JoinInjective(a, b, ", ");
  }

  /** A linear gradient never reads as a radial one. */
  lemma LinearIsNotRadial(direction: string, a: seq<string>, b: seq<string>)
    ensures Css(Linear, direction, a) != Css(Radial, direction, b)
  {
    assert Css(Linear, direction, a)[0] == 'l';
    assert Css(Radial, direction, b)[0] == 'r';
  }

  function DefaultStops(): (stops: seq<string>)
    ensures |stops| == 2
  {
    ["#4f46e5", "#7e22ce"]
  }

  const DefaultValue: string := "linear-gradient(to right, #4f46e5, #7e22ce)"

  /** The starting stops and direction produce the default value of the picker. */
  lemma DefaultsProduceDefaultValue()
    ensures Css(Linear, "to right", DefaultStops()) == DefaultValue
  {
    var joined := Join(DefaultStops(), ", ");
    assert joined == "#4f46e5" + ", " + "#7e22ce";
    assert Opening(Linear, "to right") == "linear-gradient(to right, ";
  }

  function DefaultPresets(): seq<Preset> {
    [ Preset("Blue to Purple", "linear-gradient(to right, #4f46e5, #7e22ce)"),
      Preset("Green to Teal", "linear-gradient(to right, #10b981, #0891b2)"),
      Preset("Orange to Pink", "linear-gradient(to right, #f97316, #ec4899)"),
      Preset("Red to Orange", "linear-gradient(to right, #dc2626, #f97316)"),
      Preset("Purple to Pink", "linear-gradient(to right, #7e22ce, #ec4899)"),
      Preset("Blue to Green", "linear-gradient(to right, #3b82f6, #10b981)"),
      Preset("Radial Blue", "radial-gradient(circle, #3b82f6, #1e3a8a)"),
      Preset("Radial Purple", "radial-gradient(circle, #8b5cf6, #4c1d95)"),
      Preset("Sunset", "linear-gradient(to right, #f97316, #dc2626, #7e22ce)"),
      Preset("Ocean", "linear-gradient(to right, #0891b2, #1e40af)"),
      Preset("Forest", "linear-gradient(to right, #047857, #10b981)") ]
  }

  /** `allPresets`: the supplied presets when there are any, the defaults otherwise. */
  function AllPresets(presets: seq<Preset>): seq<Preset> {
    if |presets| > 0 then presets else DefaultPresets()
  }

  /** The presets offered are never empty: the supplied ones, or the eleven defaults. */
  lemma PresetsOffered(presets: seq<Preset>)
    ensures |presets| > 0 ==> AllPresets(presets) == presets
    ensures |presets| == 0 ==> |AllPresets(presets)| == 11
  {
  }

  /** The settings of the custom tab. */
  datatype Settings = Settings(kind: GradientType, direction: string, stops: seq<string>)

  /**
   * The update as written: each handler defers `updateGradient`, and the
   * deferred call still sees the settings of the render that created the
   * handler, so the preview shows the settings before the edit.
   */
  function DeferredUpdateAsWritten(before: Settings, after: Settings): (css: string)
    ensures |css| > |Opening(before.kind, before.direction)|
    ensures css[..|Opening(before.kind, before.direction)|] == Opening(before.kind, before.direction)
  {
    Css(before.kind, before.direction, before.stops)
  }

  /** Changing the first default stop to black leaves the preview on the old colours. */
  lemma DeferredUpdateLags()
    ensures var before := Settings(Linear, "to right", DefaultStops());
      var after := before.(stops := DefaultStops()[0 := "#000000"]);
      && DeferredUpdateAsWritten(before, after) == DefaultValue
      && DeferredUpdateAsWritten(before, after) != Css(after.kind, after.direction, after.stops)
  {
    DefaultsProduceDefaultValue();
    var changed := DefaultStops()[0 := "#000000"];
    assert changed[0] != DefaultStops()[0];
    assert Avoids(DefaultStops(), ',') && Avoids(changed, ',') by {
      assert ',' !in "#4f46e5" && ',' !in "#7e22ce" && ',' !in "#000000";
    }
    if Css(Linear, "to right", DefaultStops()) == Css(Linear, "to right", changed) {
      CssDeterminesStops(Linear, "to right", DefaultStops(), changed);
    }
  }

  datatype PickerState = PickerState(
    isOpen: bool,
    activeGradient: string,
    kind: GradientType,
    direction: string,
    stops: seq<string>,
    emitted: seq<string>)

  /**
   * The picker. `emitted` records the values passed to `onChange`, oldest
   * first. Every edit of the settings recomputes the preview from the new
   * settings.
   */
  class Picker {
    var isOpen: bool
    var activeGradient: string
    var kind: GradientType
    var direction: string
    var stops: seq<string>
    var emitted: seq<string>

    function State(): PickerState
      reads this
    {
      PickerState(isOpen, activeGradient, kind, direction, stops, emitted)
    }

    /** There are never fewer than two colour stops. */
    predicate Valid()
      reads this
    {
      |stops| >= 2
    }

    constructor (value: string)
      ensures Valid()
      ensures State() == PickerState(false, value, Linear, "to right", DefaultStops(), [])
    {
      isOpen := false;
      activeGradient := value;
      kind := Linear;
      direction := "to right";
      stops := DefaultStops();
      emitted := [];
    }

    method Open()
      requires Valid()
      modifies this
      ensures Valid()
      ensures State() == old(State()).(isOpen := true)
    {
      isOpen := true;
    }

    /** The Cancel button and the dialog's own close: nothing is passed to `onChange`. */
    method Close()
      requires Valid()
      modifies this
      ensures Valid()
      ensures State() == old(State()).(isOpen := false)
    {
      isOpen := false;
    }

    /** `handleColorStopChange`: only stop `index` changes. */
    method ChangeStop(index: nat, color: string)
      requires Valid() && index < |stops|
      modifies this
      ensures Valid()
      ensures stops == old(stops)[index := color]
      ensures State() == old(State()).(stops := stops, activeGradient := Css(kind, direction, stops))
    {
      stops := stops[index := color];
      activeGradient := Css(kind, direction, stops);
    }

    /** `addColorStop`: a white stop at the end. */
    method AddStop()
      requires Valid()
      modifies this
      ensures Valid()
      ensures stops == old(stops) + ["#ffffff"]
      ensures State() == old(State()).(stops := stops, activeGradient := Css(kind, direction, stops))
    {
      stops := stops + ["#ffffff"];
      activeGradient := Css(kind, direction, stops);
    }

    /** `removeColorStop`: refused while only two stops are left; otherwise stop `index` leaves. */
    method RemoveStop(index: nat)
      requires Valid()
      modifies this
      ensures Valid()
      ensures |old(stops)| <= 2 ==> State() == old(State())
      ensures |old(stops)| > 2 ==> stops == RemoveAt(old(stops), index)
      ensures |old(stops)| > 2 ==>
        State() == old(State()).(stops := stops, activeGradient := Css(kind, direction, stops))
    {
      if |stops| <= 2 {
        return;
      }
      stops := RemoveAt(stops, index);
      activeGradient := Css(kind, direction, stops);
    }

    /** The Linear and Radial buttons. */
    method SetType(k: GradientType)
      requires Valid()
      modifies this
      ensures Valid()
      ensures State() == old(State()).(kind := k, activeGradient := Css(k, direction, stops))
    {
      kind := k;
      activeGradient := Css(kind, direction, stops);
    }

    /** The direction buttons. */
    method SetDirection(d: string)
      requires Valid()
      modifies this
      ensures Valid()
      ensures State() == old(State()).(direction := d, activeGradient := Css(kind, d, stops))
    {
      direction := d;
      activeGradient := Css(kind, direction, stops);
    }

    /** A preset click: the preset becomes the active gradient, is passed to `onChange`, and the dialog closes. */
    method ChoosePreset(p: Preset)
      requires Valid()
      modifies this
      ensures Valid()
      ensures State() == old(State()).(activeGradient := p.value, emitted := old(emitted) + [p.value], isOpen := false)
    {
      activeGradient := p.value;
      emitted := emitted + [p.value];
      isOpen := false;
    }

    /** `applyGradient`: the active gradient is passed to `onChange` and the dialog closes. */
    method Apply()
      requires Valid()
      modifies this
      ensures Valid()
      ensures State() == old(State()).(emitted := old(emitted) + [old(activeGradient)], isOpen := false)
    {
      emitted := emitted + [activeGradient];
      isOpen := false;
    }
  }

  /** Removing from more than two stops leaves at least two, so the minimum is kept whichever index is chosen. */
  lemma RemoveKeepsTwo(stops: seq<string>, index: nat)
    requires |stops| > 2
    ensures |RemoveAt(stops, index)| >= 2
  {
  }
}
