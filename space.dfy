/** A space as the backend lists it: the entity the admin page edits and
    the home page links to. */
module Spaces {
  import opened Js

  /** `{id, name, location, type, imageUrl?}`; the home page ignores the
      image. */
  datatype Space = Space(id: int, name: string, location: string, spaceType: string, imageUrl: Option<string>)
}
