/** The note store of Node-JS/app.js: registration, and per-user notes with
    tags and images. users.json and notes.json are the sequences `users` and
    `notes`; uuid, bcrypt, the clock and the uploaded file names are
    parameters. */
module NodeNotes {
  import opened Common
  import opened Strings

  datatype User = User(id: string, username: string, passwordHash: string)

  datatype Note = Note(id: string, userId: string, content: string, tags: seq<string>,
                       images: seq<string>, created: string)

  /** The JSON answer of a notes route. */
  datatype Answer = NoteAnswer(note: Note) | Done | Fail(status: nat, error: string)

  datatype Registration = Registered(userId: string) | RegisterRejected(error: string)

  const NotFound := "Note not found or you do not have permission."

  /** `tags ? tags.split(',').map(trim).filter(tag => tag.length > 0) : []`. */
  function ParseTags(raw: Option<string>): (r: seq<string>)
    ensures forall k :: 0 <= k < |r| ==> IsEntry(r[k])
    ensures !Truthy(raw) ==> r == []
    ensures Truthy(raw) ==> r == CommaList(raw.value)
  {
    if Truthy(raw) then
      CommaListEntries(raw.value);
      CommaList(raw.value)
    else []
  }

  /** `/` and `GET /notes`: the caller's notes in store order. */
  function UserNotes(notes: seq<Note>, userId: string): (r: seq<Note>)
    ensures forall n :: n in r <==> n in notes && n.userId == userId
    ensures multiset(r) <= multiset(notes)
  {
    Filter(notes, (n: Note) => n.userId == userId)
  }

  /** Listing the union of two stores lists each in turn. */
  lemma UserNotesAppend(a: seq<Note>, b: seq<Note>, userId: string)
    ensures UserNotes(a + b, userId) == UserNotes(a, userId) + UserNotes(b, userId)
  {
    FilterAppend(a, b, (n: Note) => n.userId == userId);
  }

  function NoteIndex(notes: seq<Note>, id: string, userId: string): (r: int)
    ensures -1 <= r < |notes|
    ensures r >= 0 ==> notes[r].id == id && notes[r].userId == userId
    ensures r >= 0 ==> forall k :: 0 <= k < r ==> !(notes[k].id == id && notes[k].userId == userId)
    ensures r == -1 <==> forall k :: 0 <= k < |notes| ==> !(notes[k].id == id && notes[k].userId == userId)
  {
    FindIndex(notes, (n: Note) => n.id == id && n.userId == userId)
  }

  /** The note after `PUT /notes/:id`: content uses `||`, so an empty
      string keeps the old content; the tags are replaced by the parsed
      list, which is empty when no tags are sent; images are untouched. */
  function UpdatedNote(n: Note, content: Option<string>, tags: Option<string>): (r: Note)
    ensures Truthy(content) ==> r.content == content.value
    ensures !Truthy(content) ==> r.content == n.content
    ensures r.tags == ParseTags(tags)
    ensures r.images == n.images
    ensures r.id == n.id && r.userId == n.userId && r.created == n.created
  {
    n.(content := OrElse(content, n.content), tags := ParseTags(tags))
  }

  /** The store after `DELETE /notes/:id`: exactly the caller's notes with
      that id go. */
  function WithoutOwned(notes: seq<Note>, id: string, userId: string): (r: seq<Note>)
    ensures forall n :: n in r <==> n in notes && !(n.id == id && n.userId == userId)
    ensures multiset(r) <= multiset(notes)
  {
    Filter(notes, (n: Note) => !(n.id == id && n.userId == userId))
  }

  /** Deleting a note the caller owns always shrinks the store, so the
      handler's second "not found" test, on an unchanged length, never
      fires. */
  lemma WithoutOwnedShrinks(notes: seq<Note>, id: string, userId: string)
    requires NoteIndex(notes, id, userId) >= 0
    ensures |WithoutOwned(notes, id, userId)| < |notes|
  {
    FilterShrinks(notes, (n: Note) => !(n.id == id && n.userId == userId), NoteIndex(notes, id, userId));
  }

  /** Notes of other users are never deleted, whatever their id. */
  lemma {:induction false} KeepsOthers(notes: seq<Note>, id: string, userId: string, other: string)
    requires other != userId
    ensures UserNotes(WithoutOwned(notes, id, userId), other) == UserNotes(notes, other)
  {
    if notes != [] {
      KeepsOthers(notes[1..], id, userId, other);
    }
  }

  class NodeApp {
    var users: seq<User>
    var notes: seq<Note>

    constructor(users0: seq<User>, notes0: seq<Note>)
      ensures users == users0 && notes == notes0
    {
      users, notes := users0, notes0;
    }

    /** `POST /register`: only an exact duplicate name is refused. */
    method Register(username: string, password: string, newId: string, hash: string -> string)
      returns (r: Registration)
      modifies this
      ensures (exists k :: 0 <= k < |old(users)| && old(users)[k].username == username) ==>
        r == RegisterRejected("Benutzername existiert bereits") && unchanged(this)
      ensures (forall k :: 0 <= k < |old(users)| ==> old(users)[k].username != username) ==>
        r == Registered(newId) && users == old(users) + [User(newId, username, hash(password))] && notes == old(notes)
    {
      var i := FindIndex(users, (u: User) => u.username == username);
      if i >= 0 {
        return RegisterRejected("Benutzername existiert bereits");
      }
      users := users + [User(newId, username, hash(password))];
      r := Registered(newId);
    }

    /** `POST /notes`: missing or empty content is refused with 400;
        otherwise exactly one note of the caller is appended. */
    method CreateNote(userId: string, content: Option<string>, tags: Option<string>, files: seq<string>,
                      newId: string, now: string) returns (r: Answer)
      modifies this
      ensures !Truthy(content) ==> r == Fail(400, "Content is required.") && unchanged(this)
      ensures Truthy(content) ==>
        var n := Note(newId, userId, content.value, ParseTags(tags), files, now);
        r == NoteAnswer(n) && notes == old(notes) + [n] && users == old(users)
    {
      if !Truthy(content) {
        return Fail(400, "Content is required.");
      }
      var n := Note(newId, userId, content.value, ParseTags(tags), files, now);
      notes := notes + [n];
      r := NoteAnswer(n);
    }

    /** `PUT /notes/:id`. */
    method UpdateNote(id: string, userId: string, content: Option<string>, tags: Option<string>)
      returns (r: Answer)
      modifies this
      ensures users == old(users)
      ensures NoteIndex(old(notes), id, userId) == -1 ==> r == Fail(404, NotFound) && notes == old(notes)
      ensures NoteIndex(old(notes), id, userId) >= 0 ==>
        var i := NoteIndex(old(notes), id, userId);
        var n := UpdatedNote(old(notes)[i], content, tags);
        r == NoteAnswer(n) && notes == old(notes)[i := n]
    {
      var i := NoteIndex(notes, id, userId);
      if i == -1 {
        return Fail(404, NotFound);
      }
      var n := notes[i];
      n := n.(content := OrElse(content, n.content));
      n := n.(tags := ParseTags(tags));
      notes := notes[i := n];
      r := NoteAnswer(n);
    }

    /** `DELETE /notes/:id`. The image files are unlinked best-effort, which
        does not affect the store. */
    method DeleteNote(id: string, userId: string) returns (r: Answer)
      modifies this
      ensures users == old(users)
      ensures NoteIndex(old(notes), id, userId) == -1 ==> r == Fail(404, NotFound) && notes == old(notes)
      ensures NoteIndex(old(notes), id, userId) >= 0 ==> r == Done && notes == WithoutOwned(old(notes), id, userId)
    {
      var i := NoteIndex(notes, id, userId);
      if i == -1 {
        return Fail(404, NotFound);
      }
      var remaining := WithoutOwned(notes, id, userId);
      WithoutOwnedShrinks(notes, id, userId);
      if |remaining| == |notes| {
        // the second "not found" answer of the handler
        assert false;
      }
      notes := remaining;
      r := Done;
    }
  }
}
