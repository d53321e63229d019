/**
  The Sub add/edit form: the store gate in buildForm(), the field grouping
  of form(), the hideEmptyVisibilitySettings() after-build callback, the
  updateStatus() entity builder and the action buttons of actions().
 */
module SubForm {
  import opened Wrappers
  import opened Render
  import opened SubEntity

  // ---------------------------------------------------------------------
  // buildForm(): the store gate
  // ---------------------------------------------------------------------

  /** The warning shown instead of the form; `@link` stands for the link to
      the store add page. */
  const NoStoreWarning := "Subs can't be created until a store has been added. @link"

  const Warning := Empty.(markup := Some(NoStoreWarning))

  /** buildForm(): with no store, the given form plus a `warning` child;
      otherwise whatever the parent entity form builds. */
  function BuildForm(form: FormArray, storeCount: nat, parentBuild: FormArray -> FormArray): (r: FormArray)
    ensures storeCount == 0 ==>
      && r.children.Keys == form.children.Keys + {"warning"}
      && r.children["warning"] == Warning
      && (forall k :: k in form.children && k != "warning" ==> r.children[k] == form.children[k])
      && r.afterBuild == form.afterBuild
      && r.entityBuilders == form.entityBuilders
    ensures storeCount != 0 ==> r == parentBuild(form)
  {
    if storeCount == 0 then
      form.(children := form.children["warning" := Warning])
    else
      parentBuild(form)
  }

  // ---------------------------------------------------------------------
  // form(): containers and field grouping
  // ---------------------------------------------------------------------

  /** The children form() writes unconditionally. */
  const ContainerKeys: set<string> :=
    {"changed", "meta", "advanced", "visibility_settings", "path_settings", "author"}

  /** Which container each optional field is moved into. */
  const FieldGroups: map<string, string> :=
    map["uid" := "author", "created" := "author", "path" := "path_settings", "stores" := "visibility_settings"]

  /** `!empty($form['stores']['#access'])`. */
  predicate StoresAccessible(c: map<string, Element>)
  {
    "stores" in c && IsTrue(c["stores"].access)
  }

  /** `!empty($form['path']['widget'][0]['alias']['#value'])`. */
  predicate AliasSet(c: map<string, Element>)
  {
    && "path" in c
    && c["path"].widget.Some?
    && c["path"].widget.value.alias.Some?
    && !PhpEmpty(c["path"].widget.value.alias.value)
  }

  /** `!empty($form['path']['#access'])`, and the path field's edit access. */
  predicate PathAccessible(c: map<string, Element>, pathEditAccess: bool)
  {
    "path" in c && IsTrue(c["path"].access) && pathEditAccess
  }

  /** The containers form() adds on top of the parent's form. */
  function Containers(c: map<string, Element>, sub: Sub, pathEditAccess: bool): (r: map<string, Element>)
    ensures r.Keys == c.Keys + ContainerKeys
    ensures forall k :: k in c && k !in ContainerKeys ==> r[k] == c[k]
    ensures r["visibility_settings"].access == Some(StoresAccessible(c))
    ensures r["visibility_settings"].group == Some("advanced")
    ensures r["path_settings"].access == Some(PathAccessible(c, pathEditAccess))
    ensures r["path_settings"].open == Some(AliasSet(c))
    ensures r["changed"].defaultValue == Some(sub.changed)
  {
    c["changed" := Empty.(kind := Some("hidden"), defaultValue := Some(sub.changed))]
     ["meta" := Empty.(kind := Some("container"), group := Some("advanced"), weight := Some(-100))]
     ["advanced" := Empty.(kind := Some("container"), weight := Some(99))]
     ["visibility_settings" := Empty.(kind := Some("details"), open := Some(true), group := Some("advanced"),
                                      access := Some(StoresAccessible(c)), weight := Some(30))]
     ["path_settings" := Empty.(kind := Some("details"), open := Some(AliasSet(c)), group := Some("advanced"),
                                access := Some(PathAccessible(c, pathEditAccess)), weight := Some(60))]
     ["author" := Empty.(kind := Some("details"), group := Some("advanced"), weight := Some(90),
                         optional := Some(true))]
  }

  /** `if (isset($form[k])) $form[k]['#group'] = g;` */
  function GroupIfPresent(c: map<string, Element>, k: string, g: string): (r: map<string, Element>)
    ensures r.Keys == c.Keys
    ensures k in c ==> r[k] == c[k].(group := Some(g))
    ensures forall j :: j in c && j != k ==> r[j] == c[j]
  {
    if k in c then c[k := c[k].(group := Some(g))] else c
  }

  lemma FieldsAreNotContainers()
    ensures FieldGroups.Keys !! ContainerKeys
    ensures FieldGroups.Values <= ContainerKeys
  {
  }

  /** The four `isset`-guarded group assignments of form(), in order. */
  function GroupFields(c: map<string, Element>): (r: map<string, Element>)
    ensures r.Keys == c.Keys
    ensures forall k :: k in FieldGroups && k in c ==> r[k] == c[k].(group := Some(FieldGroups[k]))
    ensures forall k :: k in c && k !in FieldGroups ==> r[k] == c[k]
  {
    var c1 := GroupIfPresent(c, "uid", "author");
    var c2 := GroupIfPresent(c1, "created", "author");
    var c3 := GroupIfPresent(c2, "path", "path_settings");
    GroupIfPresent(c3, "stores", "visibility_settings")
  }

  /** form(): registers the status entity builder, adds the containers and
      moves each present optional field into its container; the
      hideEmptyVisibilitySettings callback goes with the stores field. */
  function Form(base: FormArray, sub: Sub, pathEditAccess: bool): (r: FormArray)
    // Exactly the containers are added; no absent field is created.
    ensures r.children.Keys == base.children.Keys + ContainerKeys
    // Every present optional field lands in its container, which exists.
    ensures forall k :: k in FieldGroups && k in base.children ==>
      && r.children[k] == base.children[k].(group := Some(FieldGroups[k]))
      && FieldGroups[k] in r.children
    // Every other child of the parent's form is left as it was.
    ensures forall k :: k in base.children && k !in ContainerKeys && k !in FieldGroups ==>
      r.children[k] == base.children[k]
    ensures r.children["visibility_settings"].access == Some(StoresAccessible(base.children))
    ensures r.children["visibility_settings"].group == Some("advanced")
    ensures r.children["path_settings"].access == Some(PathAccessible(base.children, pathEditAccess))
    ensures r.children["path_settings"].open == Some(AliasSet(base.children))
    ensures r.children["changed"].defaultValue == Some(sub.changed)
    ensures r.entityBuilders.Keys == base.entityBuilders.Keys + {"update_status"}
    ensures r.entityBuilders["update_status"] == UpdateStatusBuilder
    ensures forall k :: k in base.entityBuilders && k != "update_status" ==>
      r.entityBuilders[k] == base.entityBuilders[k]
    // The after-build callback is registered if and only if stores is present.
    ensures "stores" in base.children ==> r.afterBuild == base.afterBuild + [HideEmptyVisibility]
    ensures "stores" !in base.children ==> r.afterBuild == base.afterBuild
  {
    FieldsAreNotContainers();
    var c := Containers(base.children, sub, pathEditAccess);
    FormArray(
      GroupFields(c),
      if "stores" in c then base.afterBuild + [HideEmptyVisibility] else base.afterBuild,
      base.entityBuilders["update_status" := UpdateStatusBuilder])
  }

  // ---------------------------------------------------------------------
  // hideEmptyVisibilitySettings()
  // ---------------------------------------------------------------------

  /** `isset($form['stores']['widget']['target_id'])` and the target has no
      visible children. */
  predicate StoresWidgetHidden(c: map<string, Element>)
  {
    && "stores" in c
    && c["stores"].widget.Some?
    && c["stores"].widget.value.targetId.Some?
    && c["stores"].widget.value.targetId.value.visibleChildren == {}
  }

  /** hideEmptyVisibilitySettings(): when the stores widget renders nothing
      visible, marks the visibility details printed and takes stores out of
      that group; otherwise the form is returned as it came. */
  function HideEmptyVisibilitySettings(form: FormArray): (r: FormArray)
    ensures StoresWidgetHidden(form.children) ==>
      && r.children.Keys == form.children.Keys + {"visibility_settings"}
      && r.children["visibility_settings"] == Get(form.children, "visibility_settings").(printed := Some(true))
      && r.children["stores"] == form.children["stores"].(group := None)
      && (forall k :: k in form.children && k != "visibility_settings" && k != "stores" ==>
            r.children[k] == form.children[k])
      && r.afterBuild == form.afterBuild
      && r.entityBuilders == form.entityBuilders
    ensures !StoresWidgetHidden(form.children) ==> r == form
  {
    var c := form.children;
    if "stores" in c && c["stores"].widget.Some? && c["stores"].widget.value.targetId.Some? then
      var storesElement := c["stores"].widget.value.targetId.value;
      if storesElement.visibleChildren == {} then
        var printed := Get(c, "visibility_settings").(printed := Some(true));
        form.(children := c["visibility_settings" := printed]["stores" := c["stores"].(group := None)])
      else
        form
    else
      form
  }

  // ---------------------------------------------------------------------
  // updateStatus()
  // ---------------------------------------------------------------------

  /** updateStatus(): a `#published_status` on the triggering element decides
      the published flag; without one the entity is left alone. The entity
      type and the form, which the source receives but does not read, are
      not parameters. */
  function UpdateStatus(sub: Sub, trigger: Element): (r: Sub)
    ensures trigger.publishedStatus.Some? ==> r.published == trigger.publishedStatus.value
    ensures r.(published := sub.published) == sub
    ensures trigger.publishedStatus.None? ==> r == sub
  {
    if trigger.publishedStatus.Some? then SetPublished(sub, trigger.publishedStatus.value) else sub
  }

  // ---------------------------------------------------------------------
  // actions()
  // ---------------------------------------------------------------------

  const SaveAndPublish := "Save and publish"
  const SaveAsUnpublished := "Save as unpublished"
  const SaveAndKeepPublished := "Save and keep published"
  const SaveAndUnpublish := "Save and unpublish"
  const SaveAndKeepUnpublished := "Save and keep unpublished"

  /** The attributes a status button inherits from the generic submit
      button unchanged. */
  predicate Inherits(b: Element, submit: Element)
  {
    && b.kind == submit.kind
    && b.group == submit.group
    && b.access == submit.access
    && b.open == submit.open
    && b.optional == submit.optional
    && b.printed == submit.printed
    && b.markup == submit.markup
    && b.defaultValue == submit.defaultValue
    && b.widget == submit.widget
  }

  /** The label of the publish button. */
  function PublishLabel(sub: Sub): string
  {
    if sub.isNew then SaveAndPublish
    else if sub.published then SaveAndKeepPublished else SaveAndPublish
  }

  /** The label of the unpublish button. */
  function UnpublishLabel(sub: Sub): string
  {
    if sub.isNew then SaveAsUnpublished
    else if !sub.published then SaveAndKeepUnpublished else SaveAndUnpublish
  }

  /** actions(): starting from the parent's buttons, gates delete on the
      delete access, adds publish and unpublish copies of submit carrying a
      status marker, labels them, makes one of them primary and hides submit. */
  function Actions(parent: map<string, Element>, sub: Sub, deleteAccess: bool): (r: map<string, Element>)
    ensures r.Keys == parent.Keys + {"delete", "publish", "unpublish", "submit"}
    ensures forall k :: k in parent && k !in {"delete", "publish", "unpublish", "submit"} ==> r[k] == parent[k]
    // delete: access delegated to the entity, weight 100, the rest as before.
    ensures r["delete"] == Get(parent, "delete").(access := Some(deleteAccess), weight := Some(100))
    // submit: only its access changes, to FALSE.
    ensures r["submit"] == Get(parent, "submit").(access := Some(false))
    // publish and unpublish are copies of submit with a status marker.
    ensures Inherits(r["publish"], Get(parent, "submit"))
    ensures Inherits(r["unpublish"], Get(parent, "submit"))
    ensures r["publish"].publishedStatus == Some(true)
    ensures r["unpublish"].publishedStatus == Some(false)
    ensures r["publish"].dropbutton == Some("save") && r["unpublish"].dropbutton == Some("save")
    // Labels.
    ensures sub.isNew ==> r["publish"].value == Some(SaveAndPublish) && r["unpublish"].value == Some(SaveAsUnpublished)
    ensures !sub.isNew && sub.published ==>
      r["publish"].value == Some(SaveAndKeepPublished) && r["unpublish"].value == Some(SaveAndUnpublish)
    ensures !sub.isNew && !sub.published ==>
      r["publish"].value == Some(SaveAndPublish) && r["unpublish"].value == Some(SaveAndKeepUnpublished)
    // Primary button: publish when published, unpublish otherwise.
    ensures sub.published ==>
      && r["publish"].buttonType == Get(parent, "submit").buttonType && r["unpublish"].buttonType == None
      && r["publish"].weight == Some(0) && r["unpublish"].weight == Some(10)
    ensures !sub.published ==>
      && r["unpublish"].buttonType == Get(parent, "submit").buttonType && r["publish"].buttonType == None
      && r["publish"].weight == Some(0) && r["unpublish"].weight == Some(-10)
  {
    var e0 := parent["delete" := Get(parent, "delete").(access := Some(deleteAccess), weight := Some(100))];
    var submit := Get(e0, "submit");
    var publish := submit.(publishedStatus := Some(true), dropbutton := Some("save"), weight := Some(0),
                           value := Some(PublishLabel(sub)));
    var unpublish := submit.(publishedStatus := Some(false), dropbutton := Some("save"), weight := Some(10),
                             value := Some(UnpublishLabel(sub)));
    var e1 := e0["publish" := publish]["unpublish" := unpublish];
    var e2 :=
      if sub.published then e1["unpublish" := e1["unpublish"].(buttonType := None)]
      else e1["publish" := e1["publish"].(buttonType := None)]
             ["unpublish" := e1["unpublish"].(weight := Some(-10))];
    e2["submit" := Get(e2, "submit").(access := Some(false))]
  }

  // ---------------------------------------------------------------------
  // The host framework's #after_build pass
  // ---------------------------------------------------------------------

  /** Runs a form's after-build callbacks in order; callbacks of other
      modules are the parameter `other`. */
  function RunAfterBuild(form: FormArray, callbacks: seq<Callback>, other: (string, FormArray) -> FormArray): FormArray
    decreases |callbacks|
  {
    if |callbacks| == 0 then form
    else
      var next := match callbacks[0]
        case HideEmptyVisibility => HideEmptyVisibilitySettings(form)
        case OtherCallback(name) => other(name, form);
      RunAfterBuild(next, callbacks[1..], other)
  }
}
