/**
  Render arrays of the host framework's form API, reduced to the attributes
  the Sub edit form reads or writes.

  A form (or the actions element) is a map from child key to `Element`; each
  `Element` records the `#`-attributes that matter here, every one optional.
 */
module Render {
  import opened Wrappers

  /** The `target_id` child of a stores widget, seen through
      Element::getVisibleChildren: the keys of its visible children. */
  datatype TargetElement = TargetElement(visibleChildren: set<string>)

  /** The `widget` child of a field element: `widget['target_id']` for an
      entity reference field, `widget[0]['alias']['#value']` for a path field. */
  datatype Widget = Widget(targetId: Option<TargetElement>, alias: Option<string>)

  /** One child of a render array. Field names follow the `#` keys:
      `kind` is `#type`, `value` is `#value` (a button's label),
      `defaultValue` is `#default_value`, the rest as named. */
  datatype Element = Element(
    kind: Option<string>,
    group: Option<string>,
    access: Option<bool>,
    weight: Option<int>,
    open: Option<bool>,
    optional: Option<bool>,
    printed: Option<bool>,
    markup: Option<string>,
    defaultValue: Option<int>,
    value: Option<string>,
    buttonType: Option<string>,
    publishedStatus: Option<bool>,
    dropbutton: Option<string>,
    widget: Option<Widget>
  )

  /** The element with no attribute set: what PHP creates when a write goes
      into a key that does not exist yet. */
  const Empty := Element(None, None, None, None, None, None, None, None, None, None, None, None, None, None)

  /** Reading a child for writing: a missing key reads as the empty element. */
  function Get(m: map<string, Element>, k: string): Element
  {
    if k in m then m[k] else Empty
  }

  /** Callbacks a form can list under `#after_build`. */
  datatype Callback = HideEmptyVisibility | OtherCallback(name: string)

  /** Callbacks a form can list under `#entity_builders`. */
  datatype Builder = UpdateStatusBuilder | OtherBuilder(name: string)

  /** A whole form array: its children and the two callback lists the Sub
      form touches. */
  datatype FormArray = FormArray(
    children: map<string, Element>,
    afterBuild: seq<Callback>,
    entityBuilders: map<string, Builder>
  )

  /** PHP's `!empty()` on a boolean attribute: set and TRUE. */
  predicate IsTrue(b: Option<bool>)
  {
    b == Some(true)
  }

  /** PHP's `empty()` on a string: the empty string and "0" are empty. */
  predicate PhpEmpty(s: string)
  {
    s == "" || s == "0"
  }
}
