/** The two note apps update a note differently. Notes-JS/app.js uses `??`
    for the content, keeps the old tags when none are sent and appends newly
    uploaded images; Node-JS/app.js uses `||` for the content, clears the
    tags when none are sent and never touches the images. */
module NoteUpdates {
  import opened Common
  import NotesStore
  import NodeNotes

  /** Starting from the same content, tags and images and given the same
      request, the two apps store the same content unless the request sends
      an empty content over a non-empty one, the same tags unless the request
      sends no tags over a non-empty list, and the same images unless new
      files were uploaded. */
  lemma UpdateContrast(a: NotesStore.Note, b: NodeNotes.Note, content: Option<string>, tags: Option<string>,
                       color: Option<string>, files: seq<string>)
    requires a.content == b.content && a.tags == b.tags && a.images == b.images
    ensures NotesStore.UpdatedNote(a, content, tags, color, files).content == NodeNotes.UpdatedNote(b, content, tags).content
      <==> content != Some("") || a.content == ""
    ensures NotesStore.UpdatedNote(a, content, tags, color, files).tags == NodeNotes.UpdatedNote(b, content, tags).tags
      <==> Truthy(tags) || a.tags == []
    ensures NotesStore.UpdatedNote(a, content, tags, color, files).images == NodeNotes.UpdatedNote(b, content, tags).images
      <==> files == []
  {
    var na := NotesStore.UpdatedNote(a, content, tags, color, files);
    if files != [] {
      assert |na.images| > |a.images|;
    }
  }

  /** An empty content in the request empties a Notes-JS note but is
      ignored by Node-JS. */
  lemma EmptyContentContrast(a: NotesStore.Note, b: NodeNotes.Note, tags: Option<string>,
                             color: Option<string>, files: seq<string>)
    ensures NotesStore.UpdatedNote(a, Some(""), tags, color, files).content == ""
    ensures NodeNotes.UpdatedNote(b, Some(""), tags).content == b.content
  {
  }
}
