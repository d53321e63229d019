/**
  Properties of the Sub form that relate several calls, or a call and an
  independent reference: the button decision table, the primary-button
  rule, submitting through each button, and the after-build pass.
 */
module SubFormProperties {
  import opened Wrappers
  import opened Render
  import opened SubEntity
  import opened SubForm

  // ---------------------------------------------------------------------
  // The button decision table
  // ---------------------------------------------------------------------

  /** The two status buttons actions() adds. */
  datatype StatusButton = PublishButton | UnpublishButton
  {
    function Key(): string
    {
      match this
      case PublishButton => "publish"
      case UnpublishButton => "unpublish"
    }

    function Other(): StatusButton
    {
      match this
      case PublishButton => UnpublishButton
      case UnpublishButton => PublishButton
    }
  }

  /** One row of the decision table: the primary button and both labels. */
  datatype Row = Row(primary: StatusButton, publishLabel: string, unpublishLabel: string)

  /** The decision table over (isNew, previous status), written out row by
      row. The last row follows the code: the publish button reads "Save and
      publish" and the unpublish button "Save and keep unpublished". */
  function DecisionTable(isNew: bool, wasPublished: bool): Row
  {
    match (isNew, wasPublished)
    case (true, true) => Row(PublishButton, "Save and publish", "Save as unpublished")
    case (true, false) => Row(UnpublishButton, "Save and publish", "Save as unpublished")
    case (false, true) => Row(PublishButton, "Save and keep published", "Save and unpublish")
    case (false, false) => Row(UnpublishButton, "Save and publish", "Save and keep unpublished")
  }

  /** actions() realises the decision table: the labels are the row's, the
      primary button keeps submit's `#button_type` and the other loses it. */
  lemma ActionsFollowDecisionTable(parent: map<string, Element>, sub: Sub, deleteAccess: bool)
    ensures var r := Actions(parent, sub, deleteAccess);
            var row := DecisionTable(sub.isNew, sub.published);
            && r["publish"].value == Some(row.publishLabel)
            && r["unpublish"].value == Some(row.unpublishLabel)
            && r[row.primary.Key()].buttonType == Get(parent, "submit").buttonType
            && r[row.primary.Other().Key()].buttonType == None
  {
  }

  /** The choice of primary button, and both buttons' weights, depend on the
      published flag alone. */
  lemma PrimaryDependsOnlyOnPublished(parent: map<string, Element>, s1: Sub, s2: Sub, a1: bool, a2: bool)
    requires s1.published == s2.published
    ensures var r1 := Actions(parent, s1, a1);
            var r2 := Actions(parent, s2, a2);
            && r1["publish"].buttonType == r2["publish"].buttonType
            && r1["unpublish"].buttonType == r2["unpublish"].buttonType
            && r1["publish"].weight == r2["publish"].weight
            && r1["unpublish"].weight == r2["unpublish"].weight
  {
  }

  /** For a new entity the labels do not depend on the published flag. */
  lemma NewEntityLabelsIgnoreStatus(parent: map<string, Element>, sub: Sub, deleteAccess: bool)
    requires sub.isNew
    ensures var r1 := Actions(parent, sub.(published := true), deleteAccess);
            var r2 := Actions(parent, sub.(published := false), deleteAccess);
            && r1["publish"].value == r2["publish"].value == Some(SaveAndPublish)
            && r1["unpublish"].value == r2["unpublish"].value == Some(SaveAsUnpublished)
  {
  }

  /** The publish and unpublish labels never coincide. */
  lemma StatusLabelsDiffer(parent: map<string, Element>, sub: Sub, deleteAccess: bool)
    ensures var r := Actions(parent, sub, deleteAccess);
            r["publish"].value != r["unpublish"].value
  {
  }

  /** The button that keeps `#button_type` is the lighter of the two, so it
      is rendered first. */
  lemma PrimaryIsLighter(parent: map<string, Element>, sub: Sub, deleteAccess: bool, b: StatusButton)
    requires Get(parent, "submit").buttonType.Some?
    ensures var r := Actions(parent, sub, deleteAccess);
            r[b.Key()].buttonType.Some? ==>
              && r[b.Other().Key()].buttonType.None?
              && r[b.Key()].weight.value < r[b.Other().Key()].weight.value
  {
  }

  // ---------------------------------------------------------------------
  // Submitting through a button
  // ---------------------------------------------------------------------

  /** Whatever the form's own checkbox copied onto the entity, submitting
      through publish publishes and through unpublish unpublishes. */
  lemma StatusButtonsDecide(parent: map<string, Element>, sub: Sub, deleteAccess: bool, checkbox: bool)
    ensures var r := Actions(parent, sub, deleteAccess);
            && UpdateStatus(sub.(published := checkbox), r["publish"]).published
            && !UpdateStatus(sub.(published := checkbox), r["unpublish"]).published
  {
  }

  /** The legacy submit button carries no marker unless the parent gave it
      one, and then submitting through it leaves the entity unchanged. */
  lemma LegacySubmitKeepsStatus(parent: map<string, Element>, sub: Sub, deleteAccess: bool)
    requires Get(parent, "submit").publishedStatus.None?
    ensures UpdateStatus(sub, Actions(parent, sub, deleteAccess)["submit"]) == sub
  {
  }

  /** Running the entity builder twice is running it once. */
  lemma UpdateStatusIdempotent(sub: Sub, trigger: Element)
    ensures UpdateStatus(UpdateStatus(sub, trigger), trigger) == UpdateStatus(sub, trigger)
  {
  }

  // ---------------------------------------------------------------------
  // The store gate
  // ---------------------------------------------------------------------

  /** Without a store the parent form is never consulted: any two parent
      builds give the same result. */
  lemma NoStoreIgnoresParent(form: FormArray, p1: FormArray -> FormArray, p2: FormArray -> FormArray)
    ensures BuildForm(form, 0, p1) == BuildForm(form, 0, p2)
  {
  }

  /** Without a store an empty form becomes the lone warning. */
  lemma NoStoreWarningOnly(form: FormArray, parentBuild: FormArray -> FormArray)
    requires form.children == map[]
    ensures BuildForm(form, 0, parentBuild).children == map["warning" := Warning]
  {
  }

  // ---------------------------------------------------------------------
  // hideEmptyVisibilitySettings() and the after-build pass
  // ---------------------------------------------------------------------

  /** hideEmptyVisibilitySettings() is idempotent. */
  lemma HideEmptyIdempotent(form: FormArray)
    ensures HideEmptyVisibilitySettings(HideEmptyVisibilitySettings(form)) == HideEmptyVisibilitySettings(form)
  {
  }

  /** A run of after-build callbacks that are all hideEmptyVisibilitySettings
      has the effect of one. */
  lemma {:induction false} HideEmptyChainIsOne(form: FormArray, callbacks: seq<Callback>, other: (string, FormArray) -> FormArray)
    requires |callbacks| > 0
    requires forall i :: 0 <= i < |callbacks| ==> callbacks[i] == HideEmptyVisibility
    ensures RunAfterBuild(form, callbacks, other) == HideEmptyVisibilitySettings(form)
    decreases |callbacks|
  {
    var once := HideEmptyVisibilitySettings(form);
    if |callbacks| > 1 {
      HideEmptyChainIsOne(once, callbacks[1..], other);
      HideEmptyIdempotent(form);
    }
  }

  /** After form() and the after-build pass, a present stores field sits in
      the visibility details exactly when its widget shows something; when
      it shows nothing it is ungrouped and the details are marked printed. */
  lemma StoresPlacement(base: FormArray, sub: Sub, pathEditAccess: bool, other: (string, FormArray) -> FormArray)
    requires "stores" in base.children
    requires forall i :: 0 <= i < |base.afterBuild| ==> base.afterBuild[i] == HideEmptyVisibility
    ensures var f := Form(base, sub, pathEditAccess);
            var r := RunAfterBuild(f, f.afterBuild, other);
            && "stores" in r.children && "visibility_settings" in r.children
            && (StoresWidgetHidden(base.children) ==>
                  r.children["stores"].group == None && r.children["visibility_settings"].printed == Some(true))
            && (!StoresWidgetHidden(base.children) ==>
                  r.children["stores"].group == Some("visibility_settings") && r == f)
  {
    var f := Form(base, sub, pathEditAccess);
    assert forall i :: 0 <= i < |f.afterBuild| ==> f.afterBuild[i] == HideEmptyVisibility by {
      assert f.afterBuild == base.afterBuild + [HideEmptyVisibility];
    }
    HideEmptyChainIsOne(f, f.afterBuild, other);
    assert f.children["stores"] == base.children["stores"].(group := Some("visibility_settings"));
    assert StoresWidgetHidden(f.children) == StoresWidgetHidden(base.children);
  }
}
