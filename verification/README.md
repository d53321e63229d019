# Sub edit form: status and button decision logic

A model of the add/edit form of the commerce_sub module's "Sub"
(subscription) entity, `src/Form/SubForm.php`. The form:

- refuses to build while no store exists and shows a warning instead;
- moves the optional `uid`, `created`, `path` and `stores` fields into the
  "Authoring information", "URL path settings" and "Visibility settings"
  containers it adds;
- takes the stores field out of an empty "Visibility settings" section after
  the build;
- replaces the generic "Save" button with "publish" and "unpublish" buttons.
  Their labels and their primary status come from a decision table over
  (is new, was published);
- lets the button that triggered a submission decide the entity's published
  flag.

Render arrays are maps from child key to an `Element` record. The record holds
the `#`-attributes the form reads or writes, each one optional (`Render`). A
write into a missing key starts from the empty element, as PHP's
auto-vivification does (`Render.Get`). The entity is the `SubEntity.Sub`
record. The framework inputs are parameters:

- the store count;
- the parent's `buildForm()`, as a function;
- the parent's base form and actions;
- the delete access and the path field's edit access, as booleans;
- `Element::getVisibleChildren` on the stores widget, as the set of visible
  child keys.

The framework's `#after_build` pass runs a form's callbacks in order. It is
modelled as `SubForm.RunAfterBuild`, with other modules' callbacks as a
function parameter.

The decision-table comment at `src/Form/SubForm.php:244-248` and the code
after it (lines 253-256) disagree on the last row. For an existing,
unpublished Sub, the comment gives the publish button "Save and keep
unpublished" and the unpublish button "Save and publish". The code does the
opposite: publish reads "Save and publish" and unpublish reads "Save and keep
unpublished". The model follows the code (`SubFormProperties.DecisionTable`).
The docblock of `hideEmptyVisibilitySettings` says it returns the
visibility_settings element. The code returns the whole form, and the model
does the same.

## Model

| member | source | states |
|---|---|---|
| SubForm.BuildForm | src/Form/SubForm.php:55-67 | with a store count of 0 the result is the given form plus exactly one `warning` child, with every other child and both callback lists unchanged; with any other count it is exactly the parent build |
| SubForm.Form | src/Form/SubForm.php:72-178 | the result's children are the parent's plus the six containers. Each present optional field is moved into its container, and that container exists. No absent field is created, and every other child is unchanged. `update_status` is registered as an entity builder. The hideEmptyVisibilitySettings callback is appended if and only if `stores` is present |
| SubForm.Containers | src/Form/SubForm.php:82-162 | exactly the six container keys are added. Visibility settings are accessible iff stores' `#access` is set and TRUE. Path settings are accessible iff path's `#access` is TRUE and the path is editable. Path settings are open iff the alias value is non-empty in PHP's sense ("" and "0" are empty). The hidden `changed` field carries the entity's changed time |
| SubForm.GroupFields | src/Form/SubForm.php:163-173 | each present field among `uid`, `created`, `path`, `stores` gets the `#group` of its container; no key is added or removed, and other children are unchanged |
| SubForm.HideEmptyVisibilitySettings | src/Form/SubForm.php:189-201 | if `stores.widget.target_id` is set and has no visible children, `visibility_settings.#printed` becomes TRUE (the element is created if missing) and `stores.#group` is removed, nothing else changes; in every other case the form is returned unchanged |
| SubForm.UpdateStatus | src/Form/SubForm.php:217-222 | a `#published_status` marker on the triggering element becomes the entity's published flag; every other entity field is unchanged, and without a marker the entity is unchanged |
| SubForm.Actions | src/Form/SubForm.php:227-269 | `delete` gets the delete access and weight 100. `publish` and `unpublish` copy submit's inherited attributes, with markers TRUE/FALSE and dropbutton `save`. Their labels follow (isNew, published). The non-primary button loses `#button_type`, and the weights are 0/10 when published, 0/-10 otherwise. `submit` ends with access FALSE. No other button changes |
| SubFormProperties.ActionsFollowDecisionTable | src/Form/SubForm.php:244-264 | for all four (isNew, wasPublished) states, the labels are the reference table's. The table's primary button keeps submit's `#button_type` and the other has none |
| SubFormProperties.PrimaryDependsOnlyOnPublished | src/Form/SubForm.php:257-264 | two entities with the same published flag get the same `#button_type` and weights on both status buttons, whatever their isNew flag or delete access |
| SubFormProperties.NewEntityLabelsIgnoreStatus | src/Form/SubForm.php:249-252 | a new entity's labels are "Save and publish" / "Save as unpublished" whether or not it is published |
| SubFormProperties.StatusLabelsDiffer | src/Form/SubForm.php:249-256 | in every state the publish and unpublish buttons carry different labels |
| SubFormProperties.PrimaryIsLighter | src/Form/SubForm.php:238-264 | when submit has a `#button_type`, the status button that keeps it has strictly smaller weight than the other, which has none |
| SubFormProperties.StatusButtonsDecide | src/Form/SubForm.php:235-241 | whatever the form's checkbox copied onto the entity, the entity builder run with the publish button leaves it published, and run with the unpublish button leaves it unpublished |
| SubFormProperties.LegacySubmitKeepsStatus | src/Form/SubForm.php:217-222 | submitting through the hidden generic submit button (no marker from the parent) leaves the entity unchanged |
| SubFormProperties.UpdateStatusIdempotent | src/Form/SubForm.php:217-222 | running the status entity builder twice equals running it once |
| SubFormProperties.NoStoreIgnoresParent | src/Form/SubForm.php:58-66 | with no store, the result does not depend on the parent build: any two parent builds give the same form |
| SubFormProperties.NoStoreWarningOnly | src/Form/SubForm.php:58-63 | with no store, an empty form becomes a form whose only child is the warning |
| SubFormProperties.HideEmptyIdempotent | src/Form/SubForm.php:189-201 | applying hideEmptyVisibilitySettings twice equals applying it once |
| SubFormProperties.HideEmptyChainIsOne | src/Form/SubForm.php:174 | a non-empty run of after-build callbacks that are all hideEmptyVisibilitySettings has the effect of a single one |
| SubFormProperties.StoresPlacement | src/Form/SubForm.php:172-201 | after form() and its after-build pass, a present stores field keeps group `visibility_settings` and the form is untouched exactly when its widget shows something. Otherwise stores is ungrouped and the visibility details are marked printed |

## Left out

- src/PluginManager/SubItemManager.php: it only configures the framework's plugin discovery (scan path, interface, annotation, alter hook, cache key) and has no behaviour of its own.
- The constructor and `create()` (dependency injection), and the store query itself: the store count is an input.
- `save()`: persisting the entity, the status message and the redirect are framework side effects.
- Translation (`t()`), the date formatting of the last-saved time, markup strings, CSS classes, attached libraries, `#theme`, `#tree` and container titles. Labels are plain string constants. The warning's `@link` placeholder is not substituted.
- The children of the `meta` header (published/not published title, last saved, author name): they are rendering only. The `meta` container itself is modelled.
- Element::getVisibleChildren, the entity's delete access and the path field's edit access are framework predicates and are inputs here. The entity type and form arguments of `updateStatus()` are not parameters, because the source does not read them.
- The rest of the parent entity-form pipeline (copying form values onto the entity, validation, how the parent builds its base form and actions) belongs to the framework. Its outputs are inputs here, and `SubFormProperties.StatusButtonsDecide` models the copied checkbox as an arbitrary published flag.
