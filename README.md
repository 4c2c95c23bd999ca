# sanity-plugin-tags: the tag pipeline, in Dafny

This project models the core of sanity-plugin-tags, a tag input for Sanity Studio, and
proves properties of that model. The model follows the pipeline that runs between the
stored field value and the select widget:

- **Preparation** (`src/utils/mutators.ts`). A stored tag, or a reference to a tag
  document, becomes a select option. The option has `label`/`value` read from custom paths.
  The original `label`/`value` are kept in `_labelTemp`/`_valueTemp`. `_type` is `tag` and
  `_key` is the value.
- **Reverting** (`src/utils/mutators.ts`). An option becomes a stored tag again, or a
  `{_ref, _type: 'reference'}` stub in reference mode.
- **Sources** (`src/utils/observables.ts`). Each source is refined in the same way: flatten,
  prepare, then drop duplicates by `(label, value)` (`src/utils/helpers.ts`).
- **State** (`src/utils/hooks.ts`). The two state hooks are classes: `Loading` holds the
  keyed loading flags and `OptionGroups` holds the option groups.
- **Widgets**. `src/components/TagsInput.tsx` resolves options, warnings and the select
  kind, sets the mount-time flags, and handles changes and creation. The older widget in
  `src/components/Tags.tsx` keeps plain records and de-duplicates whole records.

JavaScript values are the datatype `Types.Value`:

- `undefined` is `Undefined` and `null` is `Null`;
- strings are `Str`;
- plain objects are `Obj`;
- arrays are `Arr`.

A record is a `map<string, Value>`. `Lookup` of a missing key gives `Undefined`.

A field value is `Tags`: `NoTags` for `undefined`, `NullTags` for `null` (what a cleared
single select delivers), `OneTag` for an object, `TagList` for an array. Four JavaScript
exceptions are a `Result` failure:

- `MissingDocument`: a dangling single reference;
- `UnsafePath`: a refused path segment;
- `UndefinedTag`: reverting the first element of an empty array;
- `NullTag`: reverting a `null` selection.

The React components are classes:

- every subscription callback and handler is a method;
- the effects React runs after a render are the explicit methods `Settle` and `Recompute`;
- the asynchronous `handleCreate` is split into `BeginCreate` (up to its first `await`)
  and `FinishCreate`.

The modules, one per file:

- `wrappers.dfy`: `Option` and `Result`.
- `types.dfy`: values, records, tags, errors.
- `paths.dfy`: the `get`/`setAtPath` path accessor.
- `helpers.dfy`: `helpers.ts`.
- `mutators.dfy`: `mutators.ts`.
- `hooks.dfy`: `hooks.ts`.
- `observables.dfy`: `observables.ts`.
- `tags_input.dfy`: `TagsInput.tsx`.
- `legacy_tags.dfy`: `Tags.tsx`.

## Model

| member | source | states |
|---|---|---|
| Types.Project | src/utils/mutators.ts:117 | `map((tag) => tag[key])`: one value per record, each the record's `key` (or `undefined`), in order |
| Types.ProjectAppend | src/components/TagsInput.tsx:213-216 | Projecting two lists one after the other equals projecting their concatenation |
| Paths.Split | src/utils/observables.ts:179-180 | `split('.')` gives at least one segment and no segment contains a dot |
| Paths.Get | src/utils/mutators.ts:24-25 | A path reads `undefined` unless its first segment is a key; a one-segment path reads that key |
| Paths.GetAppend | src/utils/mutators.ts:24-25 | Reading `p + q` is reading `p` and then `q` inside the plain object found there; a non-object found there reads `undefined` |
| Paths.Put | src/utils/mutators.ts:74-75 | Writing a path adds only its first segment's key and leaves every other key unchanged |
| Paths.JoinSplit | src/utils/observables.ts:179-180 | Splitting a custom path on `.` loses nothing: joining the segments gives the string back |
| Paths.FirstSegment | src/utils/observables.ts:179-180 | `split('.')[0]` is a dot-free prefix of the path, and is the whole path exactly when the path has no dot |
| Paths.SetAtPath | src/utils/mutators.ts:74-75 | Fails exactly when a segment is `__proto__`, `constructor` or `prototype`. Otherwise only the first segment's key is added, and `get` of the path reads the written value back |
| Paths.GetPut | src/utils/mutators.ts:74-75 | Reading a path after writing it gives the written value |
| Paths.GetPutDisjoint | src/utils/mutators.ts:74-75 | Writing one path leaves the value at a path that parts ways with it unchanged |
| Paths.GetRemove | src/utils/mutators.ts:77-80 | Deleting a key does not change a path that starts elsewhere, nor one that read `undefined` there anyway |
| Helpers.FilterUniqueTags | src/utils/helpers.ts:24-39 | A missing list is empty. The result has no two tags with the same `(label, value)`, keeps every `(label, value)` of the input, and is a subsequence of it |
| Helpers.UniqueByKeepsFirst | src/utils/helpers.ts:27-37 | The `findIndex` filter keeps position `i` exactly when no earlier tag has the same identity |
| Helpers.KeepFirstIsDedup | src/utils/helpers.ts:27-37 | The `findIndex` filter equals a left-to-right scan that keeps a tag when its identity has not been seen |
| Helpers.UniqueByProperties | src/utils/helpers.ts:27-37 | The filter's result has distinct identities, the same set of identities, is a subsequence of the input and is idempotent |
| Helpers.FilterUniqueTagsIdempotent | src/utils/helpers.ts:24-39 | Filtering a filtered list changes nothing |
| Helpers.FilterUniqueTagsSingleton | src/utils/helpers.ts:24-39 | A one-tag list is kept as it is |
| Helpers.FilterUniqueTagsHead | src/utils/helpers.ts:24-39 | The filter empties only the empty list, and keeps a non-empty list's first tag in front |
| Helpers.FilterUniqueTagsIgnoresOtherFields | src/utils/helpers.ts:28-34 | Two tags with the same `label` and `value` are duplicates whatever their other fields: the first is kept |
| Helpers.IsSchemaMulti | src/utils/helpers.ts:6-8 | An `array` schema is multi-valued and an `object` schema is not |
| Helpers.IsSchemaReference | src/utils/helpers.ts:15-17 | A reference exactly when the schema has `to` or its `of` is an array whose first member is an object with `to`. Without `to`, a schema with no `of` or an empty `of` is not a reference |
| Mutators.PrepareTag | src/utils/mutators.ts:16-29 | The option has the record's keys plus the option keys, and keeps every other field. `label`/`value` are read from the custom paths, the old `label`/`value` go to the temporaries, `_type` is `tag` and `_key` is the old `value` |
| Mutators.PrepareEach | src/utils/mutators.ts:123 | `tags.map(prepare)`: one option per tag, in order |
| Mutators.PrepareTags | src/utils/mutators.ts:98-131 | `undefined` and `null` give `undefined`, and nothing else does; `null` is never produced. `[]` gives `[]`, and an array always succeeds as an array. A plain single tag gives its option. A single reference gives the option of its fetched document, and fails exactly when that document is missing |
| Mutators.PrepareTagsOfList | src/utils/mutators.ts:110-123 | A plain array is prepared element by element. A reference array is prepared from the batched fetch of its `_ref`s |
| Mutators.PrepareTagsAsList | src/utils/mutators.ts:138-146 | Fails exactly when prepareTags does. Otherwise `undefined` becomes `[]`, a single option a one-element list and a list itself. `undefined`/`null` give `[]`; a plain single tag gives `[its option]`; a plain list gives its options |
| Mutators.RefStub | src/utils/mutators.ts:60-63 | The reference-mode record is a reference stub to the given id with `_type: 'reference'` and no other key |
| Mutators.Restored | src/utils/mutators.ts:68-72 | The copy has the option's keys plus `label`/`value`, takes those two from the temporaries, and keeps every other field |
| Mutators.Cleaned | src/utils/mutators.ts:77-80 | Drops the temporaries, and drops `label`/`value` exactly where they are `undefined`; every kept field is unchanged |
| Mutators.RevertTag | src/utils/mutators.ts:53-84 | Reference mode always gives the `_id` stub. Object mode fails exactly on a refused path; its result holds no temporaries and no `undefined` `label`/`value` |
| Mutators.RevertTagWrites | src/utils/mutators.ts:68-82 | Object mode is: restore the temporaries, write `label` then `value` at the custom paths, clean |
| Mutators.GetAfterCleaned | src/utils/mutators.ts:77-80 | The deletions do not change what a path that does not start at a temporary reads |
| Mutators.RevertTagPaths | src/utils/mutators.ts:74-75 | With well-formed paths, the value path reads the option's `value`. The label path reads its `label`, or the `value` when the two paths coincide |
| Mutators.RevertTagKeys | src/utils/mutators.ts:68-82 | Every key outside the custom paths: `label`/`value` come back from the temporaries (or are absent when those are `undefined`); every other non-temporary key is unchanged |
| Mutators.ObjectRoundTrip | src/utils/mutators.ts:16-84 | revertTag after prepareTag gives back what the record held at both custom paths, and its own `label`/`value` where they were defined. Outside the keys the custom paths start with, every field other than the six option keys is kept. The record's own `_labelTemp`/`_valueTemp` are lost, and `_type`/`_key` become `'tag'` and the record's `value`, overwriting any that were there |
| Mutators.DefaultRoundTrip | src/utils/mutators.ts:16-84 | With default paths, a record with defined `label`/`value` and no temporaries comes back with only `_type` and `_key` added |
| Mutators.ReferenceRoundTrip | src/utils/mutators.ts:59-66 | A single reference prepared from its resolved document reverts to `{_ref: same id, _type: 'reference'}` |
| Mutators.RevertEach | src/utils/mutators.ts:210 | `map(revert)`: succeeds exactly when revertTag does (or the list is empty), one stored tag per option in order |
| Mutators.RevertTags | src/utils/mutators.ts:193-218 | `undefined` stays `undefined`, and `null` fails (it reaches revertTag). Multi reverts every element of the list, or wraps a single option in a list. Single reverts the option or the array's first element. An empty array in a single field fails |
| Mutators.RevertTagsFailure | src/utils/mutators.ts:193-218 | revertTags fails exactly on `null`, on an empty array in a single field, or on a refused object-mode path when there is a tag to write |
| Hooks.ComputeLoading | src/utils/hooks.ts:24-33 | The loop's result is true exactly when some flag is true; an empty map gives false |
| Hooks.MergeFlags | src/utils/hooks.ts:35-39 | `{...old, ...properties}`: keys are the union, the new value wins on a shared key, other keys are unchanged |
| Hooks.MergedLoading | src/utils/hooks.ts:24-39 | After a merge, loading holds exactly when a new flag is true or an untouched old flag is |
| Hooks.MergeFlagsAssoc | src/utils/hooks.ts:36-38 | Two successive merges equal one merge of the merged updates |
| Hooks.ClearingClearFlag | src/utils/hooks.ts:35-39 | Clearing a flag that is already clear changes nothing |
| Hooks.ClearingLastFlag | src/utils/hooks.ts:24-39 | Clearing the only flag that can be true ends loading |
| Hooks.Loading.constructor | src/utils/hooks.ts:17-22 | Flags default to `{}` and the state to `true` |
| Hooks.Loading.SetLoadOption | src/utils/hooks.ts:35-39 | The flags become the merge of the old flags and the update; the state waits for the effect |
| Hooks.Loading.Recompute | src/utils/hooks.ts:24-33 | The effect sets the state to whether any flag is true |
| Hooks.Upsert | src/utils/hooks.ts:70 | Writing one group: its value is the new list, other groups are unchanged, and a new name goes last |
| Hooks.Merge | src/utils/hooks.ts:69-71 | `{...old, ...properties}` on groups: an updated group has the new list, others keep theirs, the old names keep their order and new names follow |
| Hooks.MergeDistinct | src/utils/hooks.ts:69-71 | Merging keeps group names unique |
| Hooks.UpsertDistinct | src/utils/hooks.ts:70 | Writing one group keeps group names unique |
| Hooks.ConcatSnoc | src/utils/hooks.ts:61-64 | Adding a group adds its tags at the end |
| Hooks.ConcatCovers | src/utils/hooks.ts:61-64 | Every tag of an array-valued group is in the concatenation |
| Hooks.CollectGroups | src/utils/hooks.ts:61-64 | The loop pushes every array group's tags, group after group |
| Hooks.OptionsCoverGroups | src/utils/hooks.ts:60-67 | The options have distinct `(label, value)`, and every tag of every group is represented among them |
| Hooks.OptionGroups.constructor | src/utils/hooks.ts:54-58 | Options default to `[]`, and there are no groups |
| Hooks.OptionGroups.SetTagOption | src/utils/hooks.ts:69-71 | The groups become the merge; the options wait for the effect |
| Hooks.OptionGroups.Recompute | src/utils/hooks.ts:60-67 | The effect sets the options to the de-duplicated concatenation of the groups |
| Observables.Flatten | src/utils/observables.ts:28 | `flat(Infinity)` keeps every tag found at the top level |
| Observables.FlattenAppend | src/utils/observables.ts:28 | Flattening a concatenation concatenates the flattenings |
| Observables.FlattenGroup | src/utils/observables.ts:28 | A nested array contributes exactly its own flattening |
| Observables.FlattenMembers | src/utils/observables.ts:28 | A tag is in the flattening exactly when it occurs at some depth in one of the items |
| Observables.FlattenLeaves | src/utils/observables.ts:28 | Flattening a flat list gives back its tags |
| Observables.FlattenIdempotent | src/utils/observables.ts:28 | Flattening is idempotent |
| Observables.ToTags | src/utils/observables.ts:28 | Only a missing value is `undefined`; a single tag stays single; an array becomes a list holding exactly the tags that occur in it at any depth |
| Observables.ToTagsFromTags | src/utils/observables.ts:28-29 | A stored value passes the flatten step unchanged except that `null` reads as `undefined`, and the prepared list is the same either way |
| Observables.RefineTags | src/utils/observables.ts:22-31 | Fails exactly when prepareTagsAsList does, and `undefined` gives `[]`. A success has distinct `(label, value)`, covers every prepared tag's `(label, value)`, and is a subsequence of the prepared list |
| Observables.RefinePlainList | src/utils/observables.ts:22-31 | A flat list of plain tags refines to the de-duplicated options |
| Observables.SelectTags | src/utils/observables.ts:100 | Multi gets the list, single gets its first element or `undefined` |
| Observables.GetSelectedTags | src/utils/observables.ts:90-102 | Fails exactly when prepareTagsAsList does; `undefined` and `null` give `[]` or `undefined`. Multi gives the prepared list without `(label, value)` duplicates: distinct, the same `(label, value)` set, a subsequence. Single gives the first prepared tag, and `undefined` exactly when nothing was prepared |
| Observables.SelectedSinglePlainTag | src/utils/observables.ts:90-102 | A single plain stored tag comes back as its option |
| Observables.PredefinedTagWrapper | src/utils/observables.ts:109-117 | A single tag is wrapped in an array, and an array is kept |
| Observables.AsSupplier | src/utils/observables.ts:140-141 | A function is used as it is; anything else is returned by a constant function |
| Observables.GetPredefinedTags | src/utils/observables.ts:134-146 | A success has distinct `(label, value)`; the default gives `[]` |
| Observables.PredefinedSingleton | src/utils/observables.ts:109-146 | One predefined tag, as a value or from a function, gives the same options as an array holding it |
| Observables.ReferenceQueryParams | src/utils/observables.ts:177-181 | The params carry the document type and the first segment of each custom path |
| Observables.RelatedQueryParams | src/utils/observables.ts:233-239 | The params carry the id, the field, multi-ness and the first segment of each custom path |
| Observables.Observe | src/utils/observables.ts:52-63 | Emission `i` is the refined fetch after notification `i`. Without an error there is one emission per notification; an error is the first refined failure, and nothing follows it |
| Observables.GetTagsFromReference | src/utils/observables.ts:163-190 | Each emission refines the reference query's fetch with the cut params, and the error is the first failure |
| Observables.GetTagsFromRelated | src/utils/observables.ts:211-248 | Each emission refines the related query's fetch with the cut params, and the error is the first failure |
| TagsInput.TrimStart | src/components/TagsInput.tsx:67 | The result is a suffix without leading white space, everything cut off is white space, and it equals the input exactly when the input starts with none |
| TagsInput.TrimEnd | src/components/TagsInput.tsx:67 | The result is a prefix without trailing white space, everything cut off is white space, and it equals the input exactly when the input ends with none |
| TagsInput.Trim | src/components/TagsInput.tsx:67 | `trim()` is a slice of the input that neither starts nor ends with white space, with only white space before and after it |
| TagsInput.TrimIdentity | src/components/TagsInput.tsx:67 | `trim()` leaves a string alone exactly when it has no white space at either end |
| TagsInput.DefaultCheckValid | src/components/TagsInput.tsx:66-67 | Valid exactly when the input is not empty, is not a current value, and has no white space at either end |
| TagsInput.IsValidNewOption | src/components/TagsInput.tsx:212-217 | `checkValid` gets the input and the `value` of every selected option followed by every selected value |
| TagsInput.DefaultIsValidNewOption | src/components/TagsInput.tsx:212-217 | With the default check, a new option is rejected when it equals the value of any selected option or value; otherwise the text alone decides |
| TagsInput.DefaultOnCreate | src/components/TagsInput.tsx:60-65 | Fails exactly on a refused path. Otherwise the record holds the input at the value path, and at the label path when the paths coincide or part ways |
| TagsInput.DefaultCreateThenPrepare | src/components/TagsInput.tsx:60-65 | With default paths the created tag is `{label, value}` = input, and its option shows the input as label, value and key |
| TagsInput.Resolve | src/components/TagsInput.tsx:53-69 | Without options every setting is its default: no predefined tags, no reference or related source, `label`/`value` paths, creation allowed, the default `onCreate` and the default `checkValid`. With options each given setting is used as it is, and each missing one takes the same default |
| TagsInput.CreateTag | src/components/TagsInput.tsx:60-65 | A configured `onCreate` gives its record. The default fails exactly on a refused path, and otherwise holds the input at the value path |
| TagsInput.DisplayOf | src/components/TagsInput.tsx:72-74 | The create warning and the predefined warning are shown exactly as their conditions say. The select is creatable exactly when creation is allowed and the field is not a reference (line 228). A warning rules out the creatable select |
| TagsInput.MountFlags | src/components/TagsInput.tsx:89-149 | After mounting, the four source flags are set. Selected and predefined are loading. Reference is loading exactly when configured, and related exactly when configured with a parent type |
| TagsInput.MountClears | src/components/TagsInput.tsx:120-149 | Clearing the unconfigured sources' flags gives `MountFlags` |
| TagsInput.MountSteps | src/components/TagsInput.tsx:89-149 | The mount effect's three successive updates equal one merge of `MountFlags` |
| TagsInput.PatchFor | src/components/TagsInput.tsx:200 | `undefined` and `null` are unset; everything else, an empty list included, is set |
| TagsInput.ClearingPatches | src/components/TagsInput.tsx:185-203 | Emptying a multi field stores `[]`, and an `undefined` selection unsets the field. A cleared single field delivers `null`, on which revertTags fails, so no patch is emitted |
| TagsInput.AppendCreated | src/components/TagsInput.tsx:175-176 | An array selection keeps its tags and gains the new one last; otherwise the new tag replaces the selection |
| TagsInput.CreatedSelection | src/components/TagsInput.tsx:161-182 | Succeeds exactly when `onCreate` and prepareTags do. An array base keeps its prefix and gains the prepared tag last; any other base becomes the prepared tag |
| TagsInput.DefaultCreatedSelection | src/components/TagsInput.tsx:161-182 | With defaults, creation appends the option of `{label: input, value: input}` |
| TagsInput.DefaultCreateReverts | src/components/TagsInput.tsx:161-182 | With defaults on a multi list, creation succeeds, adds exactly one tag after the old ones, and the result reverts |
| TagsInput.TagsInputField.constructor | src/components/TagsInput.tsx:37-50 | First render: selection `undefined`, no flags, loading, no options |
| TagsInput.TagsInputField.Mount | src/components/TagsInput.tsx:89-149 | The flags become the old flags merged with `MountFlags` |
| TagsInput.TagsInputField.Settle | src/utils/hooks.ts:24-67 | After a render the loading state and the options catch up with the flags and groups |
| TagsInput.TagsInputField.ReceiveSelected | src/components/TagsInput.tsx:97-106 | The selected source's value becomes the selection and its flag is cleared; on failure nothing changes |
| TagsInput.TagsInputField.ReceiveGroup | src/components/TagsInput.tsx:115-116 | A source's tags replace its group and its flag is cleared; on failure nothing changes |
| TagsInput.TagsInputField.ReceivePredefined | src/components/TagsInput.tsx:109-117 | On success the predefined group is merged in holding the refined tags and its flag is merged in as clear; on failure groups and flags are unchanged. The merged options and the loading state wait for the effect |
| TagsInput.TagsInputField.ReceiveReference | src/components/TagsInput.tsx:120-132 | On success the reference group is merged in holding the refined tags and its flag is merged in as clear; on failure groups and flags are unchanged. The merged options and the loading state wait for the effect |
| TagsInput.TagsInputField.ReceiveRelated | src/components/TagsInput.tsx:135-149 | On success the related group is merged in holding the refined tags and its flag is merged in as clear; on failure groups and flags are unchanged. The merged options and the loading state wait for the effect |
| TagsInput.TagsInputField.HandleChange | src/components/TagsInput.tsx:185-203 | The selection becomes the input, and the reverted input is emitted as a set/unset patch. When reverting fails, no patch is emitted |
| TagsInput.TagsInputField.BeginCreate | src/components/TagsInput.tsx:161-165 | The `handleCreate` flag is set and the current selection is captured |
| TagsInput.TagsInputField.FinishCreate | src/components/TagsInput.tsx:166-182 | The created selection goes through handleChange and then the flag is cleared. If create or prepare fails nothing changes; if revert fails the flag stays set |
| TagsInput.CreateCycle | src/components/TagsInput.tsx:161-182 | With defaults, a create on a multi list appends one tag, keeps the old ones in front, emits one patch and leaves the flag clear |
| LegacyTags.GetUniqueTags | src/components/Tags.tsx:59-71 | No two equal records; the same records as the input; a subsequence of the input |
| LegacyTags.GetUniqueTagsIdempotent | src/components/Tags.tsx:59-71 | De-duplicating twice changes nothing |
| LegacyTags.WholeRecordIdentity | src/components/Tags.tsx:62-70 | Records with the same `label`/`value` but other differences are both kept, unlike in `filterUniqueTags` |
| LegacyTags.DefaultOnCreate | src/components/Tags.tsx:94 | The created record is `{value: input, label: input}` |
| LegacyTags.PatchFor | src/components/Tags.tsx:136 | A missing value is unset; any array, an empty one included, is set |
| LegacyTags.LegacyTagsField.constructor | src/components/Tags.tsx:87-99 | Options default to fetching from others, no presets and the default `onCreate`. The widget starts loading with no options, selecting the stored value or `[]` |
| LegacyTags.LegacyTagsField.Mount | src/components/Tags.tsx:101-127 | Loading starts. Without `fetchFromOthers` the preset options are used as they are and loading ends |
| LegacyTags.LegacyTagsField.ReceiveOthers | src/components/Tags.tsx:111-117 | The options become the unique records of the presets followed by the emitted tags, and loading ends |
| LegacyTags.LegacyTagsField.HandleChange | src/components/Tags.tsx:130-139 | The selection becomes the value, and a set/unset patch is emitted |
| LegacyTags.LegacyTagsField.BeginCreate | src/components/Tags.tsx:144 | Loading starts |
| LegacyTags.LegacyTagsField.FinishCreate | src/components/Tags.tsx:147-161 | The created record is appended to the current selection, the new list is emitted, and loading ends |
| LegacyTags.CreateWithDefaults | src/components/Tags.tsx:141-164 | With the default `onCreate`, a create keeps the old tags in front and adds `{label: input, value: input}` last |

## Left out

- `mutators.ts` and `TagsInput.tsx` import `get`, `setAtPath` and `isPlainObject` from `helpers.ts`. The bodies of these three are not part of this model. `Paths` assumes that a path is split on dots, that `get` walks plain objects only and reads `undefined` where the walk stops, and that `setAtPath` replaces non-object intermediates and throws on a refused segment (`UnsafePath`) rather than skipping the write.
- `null` is modelled as a whole field value (`NullTags`) and as a field of a record (`Null`). Array elements that are `undefined` or `null`, non-array `of` in a schema and `onCreate` results that are not objects are not modelled. `isSchemaReference` is modelled only for object members of `of`.
- A single reference whose document is missing makes `prepare(null)` throw, so preparation fails (`MissingDocument`). The code is followed here; it does not treat the missing document as an empty record.
- `JSON.stringify` key order is not modelled: two records count as the same exactly when they are equal as maps.
- `flat(Infinity)` inside `filterUniqueTags` and `getUniqueTags` is the identity: every caller passes a flat list. The refine step's flatten is modelled by `Observables.Flatten`.
- The batched reference fetch returns documents in the order the store chooses. `Client.fetchByIds` is a parameter, so no order is assumed.
- The GROQ queries and their filters, `client.listen`, and the rest of the store are parameters. Each notification is a fetched value given to `Observe` or to a `Receive…` method.
- `switchMap` cancellation, unsubscription on unmount and the timing of asynchronous work are not modelled. `await` boundaries are explicit method calls (`BeginCreate`/`FinishCreate`).
- The related source: `TagsInput.tsx:138` passes `document`, but `getTagsFromRelated` reads `documentId`, so the query runs without the document id. `ReceiveRelated` takes the fetched value as given and does not model which documents the query matches.
- React effects run when `Settle`/`Recompute` are called. Render-time effects of `isLoading` on `isDisabled`, `readOnly`, `reactSelectOptions`, `closeMenuOnSelect`, `placeholder`, `create` and the warning components are UI and not modelled.
- When `onCreate`, preparation or reverting throws inside `handleCreate`, the promise rejects and the `handleCreate` flag stays set. `FinishCreate` keeps it set; the rejection itself is not modelled.
- LegacyTags.LegacyTagsField.FinishCreate: spreading a `null` selection throws inside the state updater. The model leaves the state unchanged, including the loading flag, and does not model the failed render.
- `trim` uses a fixed set of white-space characters (the Unicode space separators, tab, line terminators and BOM). There is no Unicode normalisation.
- `includeFromReference`/`includeFromRelated` values that are not strings count as absent, as `typeof … === 'string'` does.
- `src/components/Input.tsx` and the schema files are not part of this model.
- Helpers.IsSchemaMulti: the contract covers the `array` and `object` JSON types. Every other or missing `jsonType` also counts as multi, which only the definition states.
- Observables.GetPredefinedTags: the contract states the de-duplication and the default. What the options are is stated through `RefineTags` and `PredefinedSingleton`.
