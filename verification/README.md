# Assistant settings of the Zed editor, in Dafny

This project models `crates/assistant/src/assistant_settings.rs`, which has two parts.

- **The `OpenAIModel` enumeration** (module `OpenAI`, `openai_model.dfy`). It has three variants: GPT-3.5 Turbo, GPT-4 and GPT-4 Turbo. Each variant has a serde wire name, a `full_name` (the identifier sent to the provider), a shorter `short_name` label, and a successor under `cycle`. Deserialising a model from a string accepts only the three wire names (`ParseModel`).
- **The assistant panel settings** (module `AssistantSettings`, `assistant_settings.dfy`). These are:
  - the dock position and its `snake_case` wire names;
  - the resolved `AssistantSettings`, where every field is set;
  - the settings-file layer `AssistantSettingsContent`, where every field is optional;
  - `AssistantSettings::load`, which resolves one default layer plus an ordered list of user layers.

`load` hands its work to the settings crate's JSON merge. That crate is not part of this model, so the model uses the following reading of it:

- The layers are folded in order, starting from the default layer.
- A field that a layer sets (`Some`) replaces the value so far.
- A field that a layer leaves unset (`None`, written as JSON `null`) keeps the value so far.
- The merged layer is then deserialised. This fails with "missing field" on the first field, in declaration order, that is still unset.

`MergeLayers` and `Deserialize` state this reading, and the comment at the head of `assistant_settings.dfy` repeats it.

The main results:

- `cycle` is a single 3-cycle that follows declaration order.
- Wire names round-trip, and `full_name` and `short_name` are injective.
- Each field takes its value from the last user layer that sets it (`LastSet` is an independent right-to-left definition of this).
- An empty layer can be inserted anywhere among the user layers without changing the result.
- A complete default layer always loads successfully.
- The documented defaults resolve to: button shown, docked right, 640 by 320, GPT-4 Turbo.

The code performs no validation beyond deserialisation:

- Unknown field names are not rejected: the layer type has no `deny_unknown_fields`.
- Negative or non-finite widths and heights are not rejected: no check exists.

## Model

| member | source | states |
|---|---|---|
| `OpenAI.WireName` | crates/assistant/src/assistant_settings.rs:9-14 | the serde renames: each variant's wire string, all of the provider's `gpt-` form |
| `OpenAI.FullName` | crates/assistant/src/assistant_settings.rs:18-24 | `full_name` is exactly the serde wire name of the variant |
| `OpenAI.ShortName` | crates/assistant/src/assistant_settings.rs:26-32 | `short_name` is a non-empty label strictly shorter than `full_name` |
| `OpenAI.FullNameInjective` | crates/assistant/src/assistant_settings.rs:18-24 | two variants have the same full name iff they are the same variant |
| `OpenAI.ShortNameInjective` | crates/assistant/src/assistant_settings.rs:26-32 | two variants have the same short name iff they are the same variant |
| `OpenAI.Cycle` | crates/assistant/src/assistant_settings.rs:34-40 | the successor is the next variant in declaration order, wrapping around (ordinal + 1 mod 3), and is never the variant itself |
| `OpenAI.CycleNOrdinal` | crates/assistant/src/assistant_settings.rs:34-40 | `n` applications of `cycle` advance the ordinal by `n` mod 3 |
| `OpenAI.CycleThrice` | crates/assistant/src/assistant_settings.rs:34-40 | three applications of `cycle` return the starting variant |
| `OpenAI.CyclePeriod` | crates/assistant/src/assistant_settings.rs:34-40 | `n` applications return the start iff `n` is a multiple of 3, so there is no shorter cycle |
| `OpenAI.CycleReachesAll` | crates/assistant/src/assistant_settings.rs:34-40 | every variant reaches every variant in fewer than three steps: one single cycle |
| `OpenAI.CycleInjective` | crates/assistant/src/assistant_settings.rs:34-40 | `cycle` is a permutation of the variants |
| `OpenAI.ParseModel` | crates/assistant/src/assistant_settings.rs:7-15 | a successful parse yields the variant whose wire name is the input; a failed parse means no variant has that wire name (no fallback) |
| `OpenAI.ParseFullName` | crates/assistant/src/assistant_settings.rs:9-24 | parsing `full_name(m)` gives back `m` for every variant |
| `OpenAI.ParseOnlyFullNames` | crates/assistant/src/assistant_settings.rs:7-24 | a string parses to `m` iff it is `full_name(m)` |
| `AssistantSettings.DockWireName` | crates/assistant/src/assistant_settings.rs:43-49 | dock positions serialise as non-empty lower-case words |
| `AssistantSettings.ParseDock` | crates/assistant/src/assistant_settings.rs:43-49 | a parsed dock position has the input as its wire name; a failed parse means no position has it |
| `AssistantSettings.ParseDockWireName` | crates/assistant/src/assistant_settings.rs:43-49 | parse after serialise is the identity on dock positions |
| `AssistantSettings.ParseDockOnlyWireNames` | crates/assistant/src/assistant_settings.rs:43-49 | a string parses to `d` iff it is the wire name of `d` |
| `AssistantSettings.EmptyContent` | crates/assistant/src/assistant_settings.rs:61-83 | the derived default layer leaves every field unset |
| `AssistantSettings.DocumentedDefaults` | crates/assistant/src/assistant_settings.rs:63-82 | the layer of documented defaults sets every field |
| `AssistantSettings.OverrideField` | crates/assistant/src/assistant_settings.rs:90-95 | one field of the merge: a value the later layer sets wins, an unset (null) value keeps the earlier one |
| `AssistantSettings.Overlay` | crates/assistant/src/assistant_settings.rs:90-95 | one merge step: an unset layer changes nothing, a complete layer replaces everything, a complete accumulator stays complete |
| `AssistantSettings.OverlayIdempotent` | crates/assistant/src/assistant_settings.rs:90-95 | applying the same layer twice in a row equals applying it once |
| `AssistantSettings.Deserialize` | crates/assistant/src/assistant_settings.rs:51-58 | deserialisation succeeds iff every field is set, and then carries each field's value; on failure it names a field that is unset |
| `AssistantSettings.Load` | crates/assistant/src/assistant_settings.rs:90-96 | `load` succeeds iff the merged layer is complete, and always succeeds when the default layer is complete |
| `AssistantSettings.MergeLayers` | crates/assistant/src/assistant_settings.rs:90-95 | the merge of `load`: every merged field is the value of the last user layer that sets it, or the default layer's value when none does (`LastSet`) |
| `AssistantSettings.LastSetStep` | crates/assistant/src/assistant_settings.rs:90-95 | laying the first layer over the base and then scanning the rest equals scanning all layers, the step that ties the left-to-right merge to `LastSet` |
| `AssistantSettings.FoldFieldLastWriter` | crates/assistant/src/assistant_settings.rs:90-95 | a field equals its value in the last layer that sets it |
| `AssistantSettings.FoldFieldNoWriter` | crates/assistant/src/assistant_settings.rs:90-95 | a field that no user layer sets keeps the default layer's value |
| `AssistantSettings.FoldFieldAppendNone` | crates/assistant/src/assistant_settings.rs:90-95 | a trailing layer that leaves a field unset does not change it |
| `AssistantSettings.FoldFieldIsLastSet` | crates/assistant/src/assistant_settings.rs:90-95 | the left-to-right merge of a field equals the right-to-left scan for its last writer |
| `AssistantSettings.CompletePreserved` | crates/assistant/src/assistant_settings.rs:90-95 | a complete default layer stays complete through any user layers |
| `AssistantSettings.MergeAppend` | crates/assistant/src/assistant_settings.rs:90-95 | merging `a + b` equals merging `b` over the merge of `a` |
| `AssistantSettings.EmptyLayerIsNoOp` | crates/assistant/src/assistant_settings.rs:61-95 | inserting the all-unset default layer anywhere in the user layers changes neither the merge nor the result of `load` |
| `AssistantSettings.LoadLastWriterWins` | crates/assistant/src/assistant_settings.rs:90-95 | in a successful load, each field is the value of the last user layer setting it, or else the default layer's value |
| `AssistantSettings.LoadWithoutUserLayers` | crates/assistant/src/assistant_settings.rs:90-95 | with no user layers, `load` succeeds iff the default layer is complete, and yields exactly its values |
| `AssistantSettings.DocumentedDefaultsLoad` | crates/assistant/src/assistant_settings.rs:63-82 | the documented defaults resolve to `{button: true, dock: Right, width: 640, height: 320, model: FourTurbo}`, whose wire names are `right` and `gpt-4-1106-preview` as documented |
| `AssistantSettings.TwoOverridesScenario` | crates/assistant/src/assistant_settings.rs:90-95 | a `dock: left` layer then a `default_width: 800` layer change just those two fields |
| `AssistantSettings.IncompleteMergeNamesUnsetField` | crates/assistant/src/assistant_settings.rs:51-95 | when neither the default layer nor any user layer sets `button`, `load` fails with "missing field button" |

## Left out

- The settings crate's JSON merge (`load_via_json_merge`) is not part of this model. Only its field-wise rule is modelled: a later non-null value overrides, and null keeps the earlier value.
- `Pixels` and the `f32` width and height are modelled as exact reals carried through unchanged. Float rounding, NaN and infinities are not modelled.
- Validation of widths and heights is not modelled, because the code does none.
- Rejection of unknown field names is not modelled, because the layer type does not deny unknown fields.
- JSON-schema generation (`JsonSchema`) and serde's general parsing of JSON text are left out. Only the fixed wire strings of models and dock positions are modelled, plus the missing-field error.
- `gpui::AppContext`, the unused third argument of `load`, is left out.
- `Key` (`KEY`, the `assistant` namespace in a settings file) is recorded as a constant. The settings loader that uses it is not part of this model.
- `Deserialize`: the contract states only that the reported field is unset. The body also picks the first unset field in declaration order, but the contract does not state that.
