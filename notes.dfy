/** The note record shared by the dashboard and the note card. */
module Notes {

  datatype Option<T> = None | Some(value: T)

  datatype ColorTheme = Yellow | Blue | Green | Purple | Pink

  /** A note as the dashboard holds it. The optional record fields, which a note
      may leave out, are `Option`s; `lastModified` is a time in milliseconds. */
  datatype Note = Note(
    id: string,
    title: string,
    content: string,
    tags: seq<string>,
    lastModified: int,
    isShared: Option<bool>,
    isStarred: Option<bool>,
    collaborators: Option<int>,
    colorTheme: Option<ColorTheme>)

  /** A flag read as a JavaScript condition: a missing flag is falsy. */
  predicate Truthy(flag: Option<bool>)
    ensures flag == None ==> !Truthy(flag)
    ensures flag == Some(false) ==> !Truthy(flag)
  {
    flag == Some(true)
  }

  predicate Shared(n: Note)
    ensures n.isShared == None ==> !Shared(n)
    ensures n.isShared == Some(true) ==> Shared(n)
  { Truthy(n.isShared) }

  predicate Starred(n: Note)
    ensures n.isStarred == None ==> !Starred(n)
    ensures n.isStarred == Some(true) ==> Starred(n)
  { Truthy(n.isStarred) }
}
