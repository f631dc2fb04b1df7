/**
  Settings of the assistant panel: the dock position, the fully resolved
  `AssistantSettings`, the all-optional layer `AssistantSettingsContent`
  that each settings file supplies, and `load`, which resolves one default
  layer and an ordered list of user layers into one `AssistantSettings`.

  `load` delegates to the settings crate's JSON merge, which is not part of
  this model. Its reading here: the layers are folded from the default layer
  onwards, in order; a field a layer sets (`Some`) replaces the value so far,
  a field it leaves unset (`None`, serialised as JSON `null`) is no opinion.
  The merged layer is then deserialised into `AssistantSettings`, which fails
  on the first field, in declaration order, that is still unset.
*/
module AssistantSettings {
  import opened Wrappers
  import opened OpenAI

  /** The namespace of these settings in a settings file (`KEY`). */
  const Key: string := "assistant"

  datatype DockPosition = Left | Right | Bottom

  /** The `snake_case` serde name of each dock position. */
  function DockWireName(d: DockPosition): (s: string)
    ensures |s| > 0 && forall i :: 0 <= i < |s| ==> 'a' <= s[i] <= 'z'
  {
    match d
    case Left => "left"
    case Right => "right"
    case Bottom => "bottom"
  }

  /** Deserialisation of a dock position: only the three wire names are accepted. */
  function ParseDock(s: string): (r: Option<DockPosition>)
    ensures r.Some? ==> DockWireName(r.value) == s
    ensures r.None? ==> forall d :: DockWireName(d) != s
  {
    if s == "left" then Some(Left)
    else if s == "right" then Some(Right)
    else if s == "bottom" then Some(Bottom)
    else None
  }

  /** A length in pixels; the `f32` of `AssistantSettingsContent` is carried as an unrounded number. */
  datatype Pixels = Pixels(value: real)

  /** The resolved settings: every field present. */
  datatype Settings = Settings(
    button: bool,
    dock: DockPosition,
    defaultWidth: Pixels,
    defaultHeight: Pixels,
    defaultOpenAiModel: OpenAIModel)

  /** One settings layer (`AssistantSettingsContent`): every field optional. */
  datatype Content = Content(
    button: Option<bool>,
    dock: Option<DockPosition>,
    defaultWidth: Option<real>,
    defaultHeight: Option<real>,
    defaultOpenAiModel: Option<OpenAIModel>)

  /** Fields named as in the settings file, for the error of an unset field. */
  datatype LoadError = MissingField(name: string)

  /** The derived `Default` layer: no field set. */
  function EmptyContent(): (c: Content)
    ensures Unset(c)
  {
    Content(None, None, None, None, None)
  }

  predicate Unset(c: Content) {
    c.button.None? && c.dock.None? && c.defaultWidth.None? && c.defaultHeight.None? && c.defaultOpenAiModel.None?
  }

  predicate Complete(c: Content) {
    c.button.Some? && c.dock.Some? && c.defaultWidth.Some? && c.defaultHeight.Some? && c.defaultOpenAiModel.Some?
  }

  /** The layer whose values the field documentation gives as defaults. */
  function DocumentedDefaults(): (c: Content)
    ensures Complete(c)
  {
    Content(Some(true), Some(Right), Some(640.0), Some(320.0), Some(FourTurbo))
  }

  /** One field of the merge: a set value in the later layer wins. */
  function OverrideField<T>(acc: Option<T>, layer: Option<T>): (r: Option<T>)
    ensures layer.Some? ==> r == layer
    ensures layer.None? ==> r == acc
  {
    if layer.Some? then layer else acc
  }

  /** One step of the merge: `layer` laid over `acc`, field by field. */
  function Overlay(acc: Content, layer: Content): (r: Content)
    ensures Unset(layer) ==> r == acc
    ensures Complete(layer) ==> r == layer
    ensures Complete(acc) ==> Complete(r)
  {
    Content(
      OverrideField(acc.button, layer.button),
      OverrideField(acc.dock, layer.dock),
      OverrideField(acc.defaultWidth, layer.defaultWidth),
      OverrideField(acc.defaultHeight, layer.defaultHeight),
      OverrideField(acc.defaultOpenAiModel, layer.defaultOpenAiModel))
  }

  /** Laying the same layer twice is laying it once. */
  lemma OverlayIdempotent(acc: Content, layer: Content)
    ensures Overlay(Overlay(acc, layer), layer) == Overlay(acc, layer)
  {
  }

  /**
    The merge of `load`: the user layers laid over the default layer, first to
    last. Each field ends up with its value in the last layer that sets it.
  */
  function MergeLayers(defaultValue: Content, userValues: seq<Content>): (r: Content)
    ensures r.button == LastSet(defaultValue.button, Buttons(userValues))
    ensures r.dock == LastSet(defaultValue.dock, Docks(userValues))
    ensures r.defaultWidth == LastSet(defaultValue.defaultWidth, Widths(userValues))
    ensures r.defaultHeight == LastSet(defaultValue.defaultHeight, Heights(userValues))
    ensures r.defaultOpenAiModel == LastSet(defaultValue.defaultOpenAiModel, Models(userValues))
    decreases |userValues|
  {
    if userValues == [] then defaultValue
    else
      var tail := userValues[1..];
      LastSetStep(defaultValue.button, Buttons(userValues));
      LastSetStep(defaultValue.dock, Docks(userValues));
      LastSetStep(defaultValue.defaultWidth, Widths(userValues));
      LastSetStep(defaultValue.defaultHeight, Heights(userValues));
      LastSetStep(defaultValue.defaultOpenAiModel, Models(userValues));
      assert Buttons(userValues)[1..] == Buttons(tail);
      assert Docks(userValues)[1..] == Docks(tail);
      assert Widths(userValues)[1..] == Widths(tail);
      assert Heights(userValues)[1..] == Heights(tail);
      assert Models(userValues)[1..] == Models(tail);
      MergeLayers(Overlay(defaultValue, userValues[0]), tail)
  }

  /** Deserialisation of a merged layer into the resolved settings. */
  function Deserialize(c: Content): (r: Result<Settings, LoadError>)
    ensures r.Ok? <==> Complete(c)
    ensures r.Ok? ==> && c.button == Some(r.value.button)
                      && c.dock == Some(r.value.dock)
                      && c.defaultWidth == Some(r.value.defaultWidth.value)
                      && c.defaultHeight == Some(r.value.defaultHeight.value)
                      && c.defaultOpenAiModel == Some(r.value.defaultOpenAiModel)
    ensures r.Err? ==> r.error.name in FieldNames(c)
  {
    if c.button.None? then Err(MissingField("button"))
    else if c.dock.None? then Err(MissingField("dock"))
    else if c.defaultWidth.None? then Err(MissingField("default_width"))
    else if c.defaultHeight.None? then Err(MissingField("default_height"))
    else if c.defaultOpenAiModel.None? then Err(MissingField("default_open_ai_model"))
    else Ok(Settings(
      c.button.value, c.dock.value, Pixels(c.defaultWidth.value),
      Pixels(c.defaultHeight.value), c.defaultOpenAiModel.value))
  }

  /** The settings-file names of the fields `c` leaves unset. */
  function FieldNames(c: Content): set<string> {
    (if c.button.None? then {"button"} else {})
    + (if c.dock.None? then {"dock"} else {})
    + (if c.defaultWidth.None? then {"default_width"} else {})
    + (if c.defaultHeight.None? then {"default_height"} else {})
    + (if c.defaultOpenAiModel.None? then {"default_open_ai_model"} else {})
  }

  /** `AssistantSettings::load`: merge the layers, then deserialise the result. */
  function Load(defaultValue: Content, userValues: seq<Content>): (r: Result<Settings, LoadError>)
    ensures r.Ok? <==> Complete(MergeLayers(defaultValue, userValues))
    ensures Complete(defaultValue) ==> r.Ok?
  {
    CompletePreserved(defaultValue, userValues);
    Deserialize(MergeLayers(defaultValue, userValues))
  }

  // ---------------------------------------------------------------------
  // The merge, field by field

  /** The merge of one field: the values of that field in the layers, folded over `base`. */
  function FoldField<T>(base: Option<T>, layers: seq<Option<T>>): Option<T>
    decreases |layers|
  {
    if layers == [] then base else FoldField(OverrideField(base, layers[0]), layers[1..])
  }

  function Buttons(cs: seq<Content>): (r: seq<Option<bool>>)
    ensures |r| == |cs| && forall i :: 0 <= i < |cs| ==> r[i] == cs[i].button
  {
    seq(|cs|, i requires 0 <= i < |cs| => cs[i].button)
  }

  function Docks(cs: seq<Content>): (r: seq<Option<DockPosition>>)
    ensures |r| == |cs| && forall i :: 0 <= i < |cs| ==> r[i] == cs[i].dock
  {
    seq(|cs|, i requires 0 <= i < |cs| => cs[i].dock)
  }

  function Widths(cs: seq<Content>): (r: seq<Option<real>>)
    ensures |r| == |cs| && forall i :: 0 <= i < |cs| ==> r[i] == cs[i].defaultWidth
  {
    seq(|cs|, i requires 0 <= i < |cs| => cs[i].defaultWidth)
  }

  function Heights(cs: seq<Content>): (r: seq<Option<real>>)
    ensures |r| == |cs| && forall i :: 0 <= i < |cs| ==> r[i] == cs[i].defaultHeight
  {
    seq(|cs|, i requires 0 <= i < |cs| => cs[i].defaultHeight)
  }

  function Models(cs: seq<Content>): (r: seq<Option<OpenAIModel>>)
    ensures |r| == |cs| && forall i :: 0 <= i < |cs| ==> r[i] == cs[i].defaultOpenAiModel
  {
    seq(|cs|, i requires 0 <= i < |cs| => cs[i].defaultOpenAiModel)
  }

  /** A field takes its value from the last layer that sets it. */
  lemma {:induction false} FoldFieldLastWriter<T>(base: Option<T>, layers: seq<Option<T>>, i: nat)
    requires i < |layers| && layers[i].Some?
    requires forall j :: i < j < |layers| ==> layers[j].None?
    ensures FoldField(base, layers) == layers[i]
    decreases |layers|
  {
    if i == 0 {
      FoldFieldNoWriter(layers[0], layers[1..]);
    } else {
      FoldFieldLastWriter(OverrideField(base, layers[0]), layers[1..], i - 1);
    }
  }

  /** A field no layer sets keeps its base value. */
  lemma {:induction false} FoldFieldNoWriter<T>(base: Option<T>, layers: seq<Option<T>>)
    requires forall j :: 0 <= j < |layers| ==> layers[j].None?
    ensures FoldField(base, layers) == base
    decreases |layers|
  {
    if layers != [] {
      FoldFieldNoWriter(base, layers[1..]);
    }
  }

  // ---------------------------------------------------------------------
  // Properties of the merge and of `load`

  /** A complete default layer stays complete through any user layers. */
  lemma {:induction false} CompletePreserved(base: Content, users: seq<Content>)
    ensures Complete(base) ==> Complete(MergeLayers(base, users))
    decreases |users|
  {
    if users != [] {
      CompletePreserved(Overlay(base, users[0]), users[1..]);
    }
  }

  /** Merging a concatenation is merging the second part over the merge of the first. */
  lemma {:induction false} MergeAppend(base: Content, a: seq<Content>, b: seq<Content>)
    ensures MergeLayers(base, a + b) == MergeLayers(MergeLayers(base, a), b)
    decreases |a|
  {
    if a != [] {
      assert (a + b)[1..] == a[1..] + b;
      MergeAppend(Overlay(base, a[0]), a[1..], b);
    } else {
      assert a + b == b;
    }
  }

  /** The empty layer inserted anywhere among the user layers changes nothing. */
  lemma EmptyLayerIsNoOp(base: Content, users: seq<Content>, k: nat)
    requires k <= |users|
    ensures MergeLayers(base, users[..k] + [EmptyContent()] + users[k..]) == MergeLayers(base, users)
    ensures Load(base, users[..k] + [EmptyContent()] + users[k..]) == Load(base, users)
  {
    var acc := MergeLayers(base, users[..k]);
    MergeAppend(base, users[..k] + [EmptyContent()], users[k..]);
    MergeAppend(base, users[..k], [EmptyContent()]);
    assert MergeLayers(acc, [EmptyContent()]) == acc;
    MergeAppend(base, users[..k], users[k..]);
    assert users[..k] + users[k..] == users;
  }

  /**
    Reference reading of one field: the value of the last layer that sets it,
    or `base` when no layer does, found by scanning from the last layer back.
  */
  function LastSet<T>(base: Option<T>, layers: seq<Option<T>>): Option<T>
    decreases |layers|
  {
    if layers == [] then base
    else if layers[|layers| - 1].Some? then layers[|layers| - 1]
    else LastSet(base, layers[..|layers| - 1])
  }

  /** The left-to-right merge of a field agrees with scanning for its last writer. */
  lemma {:induction false} FoldFieldIsLastSet<T>(base: Option<T>, layers: seq<Option<T>>)
    ensures FoldField(base, layers) == LastSet(base, layers)
    decreases |layers|
  {
    if layers != [] {
      var n := |layers| - 1;
      if layers[n].Some? {
        FoldFieldLastWriter(base, layers, n);
      } else {
        FoldFieldAppendNone(base, layers[..n]);
        assert layers[..n] + [None] == layers;
        FoldFieldIsLastSet(base, layers[..n]);
      }
    }
  }

  /** Laying the first layer over `base` and then the rest does what scanning all of them does. */
  lemma LastSetStep<T>(base: Option<T>, layers: seq<Option<T>>)
    requires |layers| > 0
    ensures LastSet(OverrideField(base, layers[0]), layers[1..]) == LastSet(base, layers)
  {
    FoldFieldIsLastSet(OverrideField(base, layers[0]), layers[1..]);
    FoldFieldIsLastSet(base, layers);
  }

  /** A trailing layer that leaves the field unset does not change it. */
  lemma {:induction false} FoldFieldAppendNone<T>(base: Option<T>, layers: seq<Option<T>>)
    ensures FoldField(base, layers + [None]) == FoldField(base, layers)
    decreases |layers|
  {
    if layers == [] {
      assert FoldField(base, [None]) == FoldField(base, []);
    } else {
      assert (layers + [None])[1..] == layers[1..] + [None];
      FoldFieldAppendNone(OverrideField(base, layers[0]), layers[1..]);
    }
  }

  /**
    Last writer wins: a successful load gives each field the value of the last
    user layer that sets it, and the default layer's value when none does.
  */
  lemma LoadLastWriterWins(base: Content, users: seq<Content>)
    requires Load(base, users).Ok?
    ensures Some(Load(base, users).value.button) == LastSet(base.button, Buttons(users))
    ensures Some(Load(base, users).value.dock) == LastSet(base.dock, Docks(users))
    ensures Some(Load(base, users).value.defaultWidth.value) == LastSet(base.defaultWidth, Widths(users))
    ensures Some(Load(base, users).value.defaultHeight.value) == LastSet(base.defaultHeight, Heights(users))
    ensures Some(Load(base, users).value.defaultOpenAiModel) == LastSet(base.defaultOpenAiModel, Models(users))
  {
  }

  /** With no user layers the default layer's values come through unchanged. */
  lemma LoadWithoutUserLayers(base: Content)
    ensures Load(base, []).Ok? <==> Complete(base)
    ensures Load(base, []).Ok? ==> && base.button == Some(Load(base, []).value.button)
                                   && base.dock == Some(Load(base, []).value.dock)
                                   && base.defaultWidth == Some(Load(base, []).value.defaultWidth.value)
                                   && base.defaultHeight == Some(Load(base, []).value.defaultHeight.value)
                                   && base.defaultOpenAiModel == Some(Load(base, []).value.defaultOpenAiModel)
  {
  }

  /** The documented defaults resolve to: button shown, docked right, 640 by 320, GPT-4 Turbo. */
  lemma DocumentedDefaultsLoad()
    ensures Load(DocumentedDefaults(), []) == Ok(Settings(true, Right, Pixels(640.0), Pixels(320.0), FourTurbo))
    ensures DockWireName(Load(DocumentedDefaults(), []).value.dock) == "right"
    ensures FullName(Load(DocumentedDefaults(), []).value.defaultOpenAiModel) == "gpt-4-1106-preview"
  {
  }

  /** A dock layer then a width layer over the documented defaults change just those two fields. */
  lemma TwoOverridesScenario()
    ensures Load(DocumentedDefaults(), [
                 Content(None, Some(Left), None, None, None),
                 Content(None, None, Some(800.0), None, None)])
            == Ok(Settings(true, Left, Pixels(800.0), Pixels(320.0), FourTurbo))
  {
  }

  /** A default layer missing a field makes `load` fail naming a field no layer sets. */
  lemma IncompleteMergeNamesUnsetField(base: Content, users: seq<Content>)
    requires base.button.None?
    requires forall j :: 0 <= j < |users| ==> users[j].button.None?
    ensures Load(base, users) == Err(MissingField("button"))
  {
    FoldFieldNoWriter(base.button, Buttons(users));
    FoldFieldIsLastSet(base.button, Buttons(users));
  }

  /** Every dock position round-trips through its wire name. */
  lemma ParseDockWireName(d: DockPosition)
    ensures ParseDock(DockWireName(d)) == Some(d)
  {
  }

  /** Only the three wire names parse, and each to its own position. */
  lemma ParseDockOnlyWireNames(s: string, d: DockPosition)
    ensures ParseDock(s) == Some(d) <==> s == DockWireName(d)
  {
    if s == DockWireName(d) {
      ParseDockWireName(d);
    }
  }
}
