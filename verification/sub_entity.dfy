/** The Sub (subscription) content entity, as far as its edit form sees it. */
module SubEntity {
  import opened Wrappers

  /** `isNew` is the entity's isNew(), `published` its publication flag;
      the other fields are carried so that "nothing else changes" can be said. */
  datatype Sub = Sub(
    id: Option<nat>,
    isNew: bool,
    published: bool,
    ownerName: string,
    changed: int,
    stores: seq<nat>
  )

  /** The entity's setPublished(). */
  function SetPublished(s: Sub, published: bool): (r: Sub)
    ensures r.published == published
    ensures r.(published := s.published) == s
  {
    s.(published := published)
  }
}
