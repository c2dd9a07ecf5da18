/** The note store of Notes-JS/app.js: users register and change their
    settings; each user keeps coloured notes with tags and images, can pin
    them, and sees them pinned first and newest first. users.json and
    notes.json are the sequences `users` and `notes`; uuid, bcrypt, the clock,
    the uploaded file names and the unlinking of files are parameters. */
module NotesStore {
  import opened Common
  import opened Strings

  datatype User = User(id: string, username: string, passwordHash: string)

  /** A note; `created` is the creation time as a number, which is how the
      listing compares the ISO timestamps. */
  datatype Note = Note(
    id: string,
    userId: string,
    content: string,
    tags: seq<string>,
    images: seq<string>,
    created: int,
    isPinned: bool,
    color: string)

  /** The JSON answer of an API route. */
  datatype Answer =
    | NoteAnswer(note: Note)
    | PinAnswer(isPinned: bool)
    | SettingsAnswer(newUsername: string)
    | Done
    | Fail(status: nat, error: string)

  /** The redirect of `/register`. */
  datatype Registration = Registered(userId: string) | RegisterRejected(error: string)

  const DefaultColor := "#ffffff"
  const MinPasswordLength := 4

  // ---------------------------------------------------------------------
  // Tags

  /** `tags ? tags.split(',').map(trim).filter(Boolean) : otherwise`. */
  function TagsOr(raw: Option<string>, otherwise: seq<string>): (r: seq<string>)
    ensures Truthy(raw) ==> r == CommaList(raw.value)
    ensures !Truthy(raw) ==> r == otherwise
    ensures Truthy(raw) ==> forall k :: 0 <= k < |r| ==> IsEntry(r[k])
  {
    if Truthy(raw) then
      CommaListEntries(raw.value);
      CommaList(raw.value)
    else otherwise
  }

  // ---------------------------------------------------------------------
  // Listing order

  /** `a` is listed strictly before `b`: pinned before unpinned, and newer
      before older among notes with the same pin state. */
  predicate Precedes(a: Note, b: Note) {
    (a.isPinned && !b.isPinned) || (a.isPinned == b.isPinned && a.created > b.created)
  }

  /** No note is listed after one it should precede. */
  predicate Ordered(s: seq<Note>) {
    forall i, j :: 0 <= i < j < |s| ==> !Precedes(s[j], s[i])
  }

  /** Not preceding is transitive, which is what makes the comparator a
      consistent sort order. */
  lemma NotPrecedesTransitive(a: Note, b: Note, c: Note)
    requires !Precedes(a, b) && !Precedes(b, c)
    ensures !Precedes(a, c)
  {
  }

  /** Inserts `x` into a list, after the leading notes that precede it and
      before the rest. */
  function Insert(x: Note, s: seq<Note>): (r: seq<Note>)
    ensures multiset(r) == multiset(s) + multiset{x}
    ensures |r| == |s| + 1
  {
    if s == [] || !Precedes(s[0], x) then
      [x] + s
    else
      assert s == [s[0]] + s[1..];
      [s[0]] + Insert(x, s[1..])
  }

  lemma {:induction false} InsertOrdered(x: Note, s: seq<Note>)
    requires Ordered(s)
    ensures Ordered(Insert(x, s))
  {
    var r := Insert(x, s);
    if s == [] || !Precedes(s[0], x) {
      forall i, j | 0 <= i < j < |r| ensures !Precedes(r[j], r[i]) {
        if i == 0 && j > 1 {
          NotPrecedesTransitive(s[j - 1], s[0], x);
        }
      }
    } else {
      var rest := Insert(x, s[1..]);
      InsertOrdered(x, s[1..]);
      assert r == [s[0]] + rest;
      forall j | 0 < j < |r| ensures !Precedes(r[j], s[0]) {
        assert r[j] == rest[j - 1];
        assert r[j] in multiset(s[1..]) + multiset{x};
        if r[j] != x {
          assert r[j] in s[1..];
          var k :| 0 <= k < |s[1..]| && s[1..][k] == r[j];
          assert s[k + 1] == r[j];
        }
      }
    }
  }

  /** The `Array.prototype.sort` of the listing with its comparator. */
  function SortNotes(s: seq<Note>): (r: seq<Note>)
    ensures Ordered(r)
    ensures multiset(r) == multiset(s)
    ensures |r| == |s|
  {
    if s == [] then []
    else
      assert s == [s[0]] + s[1..];
      var sorted := SortNotes(s[1..]);
      InsertOrdered(s[0], sorted);
      Insert(s[0], sorted)
  }

  predicate OwnedBy(n: Note, userId: string) {
    n.userId == userId
  }

  /** `GET /api/notes`: the caller's notes, pinned first, newest first. */
  function Listing(notes: seq<Note>, userId: string): (r: seq<Note>)
    ensures Ordered(r)
    ensures multiset(r) == multiset(Filter(notes, (n: Note) => OwnedBy(n, userId)))
    ensures forall n :: n in r <==> n in notes && n.userId == userId
  {
    var mine := Filter(notes, (n: Note) => OwnedBy(n, userId));
    var r := SortNotes(mine);
    assert forall n :: n in r <==> n in multiset(r);
    assert forall n :: n in mine <==> n in multiset(mine);
    r
  }

  /** Every pinned note of the listing comes before every unpinned one. */
  lemma ListingPinnedFirst(notes: seq<Note>, userId: string, i: int, j: int)
    requires 0 <= i < j < |Listing(notes, userId)|
    requires Listing(notes, userId)[j].isPinned
    ensures Listing(notes, userId)[i].isPinned
  {
  }

  /** Among notes of the same pin state, newer ones come first. */
  lemma ListingNewestFirst(notes: seq<Note>, userId: string, i: int, j: int)
    requires 0 <= i < j < |Listing(notes, userId)|
    requires Listing(notes, userId)[i].isPinned == Listing(notes, userId)[j].isPinned
    ensures Listing(notes, userId)[i].created >= Listing(notes, userId)[j].created
  {
  }

  // ---------------------------------------------------------------------
  // Lookups and pure pieces of the handlers

  /** The position of the note `id` when it belongs to `userId`, or -1. */
  function NoteIndex(notes: seq<Note>, id: string, userId: string): (r: int)
    ensures -1 <= r < |notes|
    ensures r >= 0 ==> notes[r].id == id && notes[r].userId == userId
    ensures r >= 0 ==> forall k :: 0 <= k < r ==> !(notes[k].id == id && notes[k].userId == userId)
    ensures r == -1 <==> forall k :: 0 <= k < |notes| ==> !(notes[k].id == id && notes[k].userId == userId)
  {
    FindIndex(notes, (n: Note) => n.id == id && n.userId == userId)
  }

  /** The note after `PUT /api/notes/:id`: content and colour use `??`, so
      only an absent value keeps the old one and an empty string is stored;
      tags are re-parsed only from a non-empty string; new images are
      appended after the existing ones. */
  function UpdatedNote(n: Note, content: Option<string>, tags: Option<string>, color: Option<string>,
                       files: seq<string>): (r: Note)
    ensures content.Some? ==> r.content == content.value
    ensures content.None? ==> r.content == n.content
    ensures r.tags == TagsOr(tags, n.tags)
    ensures color.Some? ==> r.color == color.value
    ensures color.None? ==> r.color == n.color
    ensures r.images == n.images + files
    ensures r.id == n.id && r.userId == n.userId && r.created == n.created && r.isPinned == n.isPinned
  {
    n.(content := Coalesce(content, n.content),
       tags := TagsOr(tags, n.tags),
       color := Coalesce(color, n.color),
       images := n.images + files)
  }

  /** `images.splice(images.indexOf(filename), 1)` once the file is known
      to be present: the first occurrence goes, everything else keeps its
      order. */
  function RemoveFirst(images: seq<string>, filename: string): (r: seq<string>)
    requires filename in images
    ensures |r| == |images| - 1
    ensures multiset(r) == multiset(images) - multiset{filename}
    ensures var i := FindIndex(images, x => x == filename);
      r[..i] == images[..i] && r[i..] == images[i + 1..]
  {
    var i := FindIndex(images, x => x == filename);
    assert images == images[..i] + [images[i]] + images[i + 1..];
    images[..i] + images[i + 1..]
  }

  /** `notes[i].isPinned = !notes[i].isPinned`. */
  function PinToggled(notes: seq<Note>, i: int): (r: seq<Note>)
    requires 0 <= i < |notes|
    ensures |r| == |notes|
    ensures r[i] == notes[i].(isPinned := !notes[i].isPinned)
    ensures forall k :: 0 <= k < |notes| && k != i ==> r[k] == notes[k]
  {
    notes[i := notes[i].(isPinned := !notes[i].isPinned)]
  }

  /** Toggling the pin of the same note twice restores the store: the first
      toggle does not move the note the second one finds. */
  lemma TogglePinTwice(notes: seq<Note>, id: string, userId: string)
    requires NoteIndex(notes, id, userId) >= 0
    ensures var once := PinToggled(notes, NoteIndex(notes, id, userId));
      NoteIndex(once, id, userId) == NoteIndex(notes, id, userId) &&
      PinToggled(once, NoteIndex(once, id, userId)) == notes
  {
    var i := NoteIndex(notes, id, userId);
    var once := PinToggled(notes, i);
    assert forall k :: 0 <= k < |notes| ==> once[k].id == notes[k].id && once[k].userId == notes[k].userId;
    assert NoteIndex(once, id, userId) == i;
  }

  /** The store after `DELETE /api/notes/:id`: every note with that id goes,
      whoever owns it, and every other note stays in order. */
  function WithoutId(notes: seq<Note>, id: string): (r: seq<Note>)
    ensures forall n :: n in r <==> n in notes && n.id != id
    ensures multiset(r) <= multiset(notes)
  {
    Filter(notes, (n: Note) => n.id != id)
  }

  /** Deleting an existing id shrinks the store. */
  lemma WithoutIdShrinks(notes: seq<Note>, id: string, userId: string)
    requires NoteIndex(notes, id, userId) >= 0
    ensures |WithoutId(notes, id)| < |notes|
  {
    FilterShrinks(notes, (n: Note) => n.id != id, NoteIndex(notes, id, userId));
  }

  /** Deleting keeps exactly the notes of other ids, in their order. */
  lemma WithoutIdSplits(a: seq<Note>, b: seq<Note>, id: string)
    ensures WithoutId(a + b, id) == WithoutId(a, id) + WithoutId(b, id)
  {
    FilterAppend(a, b, (n: Note) => n.id != id);
  }

  // ---------------------------------------------------------------------
  // Accounts

  /** The first test of `/register`. */
  predicate RegistrationValid(username: Option<string>, password: Option<string>) {
    Truthy(username) && Truthy(password) && |password.value| >= MinPasswordLength
  }

  /** `users.find(u => u.username === name)` found someone. */
  predicate NameTaken(users: seq<User>, name: string) {
    exists k :: 0 <= k < |users| && users[k].username == name
  }

  /** `users.some(...)` of the settings route: another user holds `name`
      up to ASCII case. */
  function HeldByOther(users: seq<User>, userId: string, name: string): (r: bool)
    ensures r <==> exists k :: 0 <= k < |users| && ToLower(users[k].username) == ToLower(name) && users[k].id != userId
  {
    if users == [] then false
    else if ToLower(users[0].username) == ToLower(name) && users[0].id != userId then true
    else
      var r := HeldByOther(users[1..], userId, name);
      assert forall k :: 1 <= k < |users| ==> users[k] == users[1..][k - 1];
      r
  }

  /** A rename to another case of the caller's own name is never refused,
      as long as no two users share a name up to case: the only holder of
      that name is the caller. */
  lemma OwnNameNeverHeld(users: seq<User>, userId: string, name: string, own: nat)
    requires own < |users| && users[own].id == userId
    requires ToLower(name) == ToLower(users[own].username)
    requires forall i, j :: 0 <= i < j < |users| ==> ToLower(users[i].username) != ToLower(users[j].username)
    ensures !HeldByOther(users, userId, name)
  {
  }

  class NotesApp {
    var users: seq<User>
    var notes: seq<Note>

    constructor(users0: seq<User>, notes0: seq<Note>)
      ensures users == users0 && notes == notes0
    {
      users, notes := users0, notes0;
    }

    /** `POST /register`. */
    method Register(username: Option<string>, password: Option<string>, newId: string,
                    hash: string -> string) returns (r: Registration)
      modifies this
      ensures !RegistrationValid(username, password) ==>
        r == RegisterRejected("Benutzername und ein Passwort mit mind. 4 Zeichen sind erforderlich.") && unchanged(this)
      ensures RegistrationValid(username, password) && NameTaken(old(users), username.value) ==>
        r == RegisterRejected("Benutzername existiert bereits") && unchanged(this)
      ensures RegistrationValid(username, password) && !NameTaken(old(users), username.value) ==>
        && r == Registered(newId)
        && users == old(users) + [User(newId, username.value, hash(password.value))]
        && notes == old(notes)
    {
      if !RegistrationValid(username, password) {
        return RegisterRejected("Benutzername und ein Passwort mit mind. 4 Zeichen sind erforderlich.");
      }
      var i := FindIndex(users, (u: User) => u.username == username.value);
      if i >= 0 {
        return RegisterRejected("Benutzername existiert bereits");
      }
      users := users + [User(newId, username.value, hash(password.value))];
      r := Registered(newId);
    }

    /** `PUT /api/user/settings`; `passwordOk` is the outcome of comparing
        the current password with the stored hash. Every refusal happens
        before the write, so a refused request changes nothing. */
    method UpdateSettings(userId: string, passwordOk: bool, newUsername: Option<string>,
                          newPassword: Option<string>, hash: string -> string) returns (r: Answer)
      modifies this
      ensures notes == old(notes)
      ensures r.Fail? ==> unchanged(this)
      ensures (forall k :: 0 <= k < |old(users)| ==> old(users)[k].id != userId) ==>
        r == Fail(404, "Benutzer nicht gefunden.")
      ensures (exists k :: 0 <= k < |old(users)| && old(users)[k].id == userId) && !passwordOk ==>
        r == Fail(403, "Aktuelles Passwort ist falsch.")
      ensures r.SettingsAnswer? ==>
        var i := FindIndex(old(users), (u: User) => u.id == userId);
        var renamed := Truthy(newUsername) && newUsername.value != old(users)[i].username;
        && 0 <= i
        && passwordOk
        && (renamed ==> !HeldByOther(old(users), userId, newUsername.value))
        && (Truthy(newPassword) ==> |newPassword.value| >= MinPasswordLength)
        && users == old(users)[i := User(
             userId,
             if renamed then newUsername.value else old(users)[i].username,
             if Truthy(newPassword) then hash(newPassword.value) else old(users)[i].passwordHash)]
        && r.newUsername == users[i].username
      ensures passwordOk && (exists k :: 0 <= k < |old(users)| && old(users)[k].id == userId) ==>
        var i := FindIndex(old(users), (u: User) => u.id == userId);
        var renamed := Truthy(newUsername) && newUsername.value != old(users)[i].username;
        && (renamed && HeldByOther(old(users), userId, newUsername.value) ==>
              r == Fail(409, "Dieser Benutzername ist bereits vergeben."))
        && (!(renamed && HeldByOther(old(users), userId, newUsername.value)) &&
            Truthy(newPassword) && |newPassword.value| < MinPasswordLength ==>
              r == Fail(400, "Das neue Passwort muss mindestens 4 Zeichen lang sein."))
        && (!(renamed && HeldByOther(old(users), userId, newUsername.value)) &&
            !(Truthy(newPassword) && |newPassword.value| < MinPasswordLength) ==>
              r.SettingsAnswer?)
    {
      var i := FindIndex(users, (u: User) => u.id == userId);
      if i == -1 {
        return Fail(404, "Benutzer nicht gefunden.");
      }
      if !passwordOk {
        return Fail(403, "Aktuelles Passwort ist falsch.");
      }
      var user := users[i];
      if Truthy(newUsername) && newUsername.value != user.username {
        if HeldByOther(users, userId, newUsername.value) {
          return Fail(409, "Dieser Benutzername ist bereits vergeben.");
        }
        user := user.(username := newUsername.value);
      }
      if Truthy(newPassword) {
        if |newPassword.value| < MinPasswordLength {
          return Fail(400, "Das neue Passwort muss mindestens 4 Zeichen lang sein.");
        }
        user := user.(passwordHash := hash(newPassword.value));
      }
      users := users[i := user];
      r := SettingsAnswer(user.username);
    }

    /** `GET /api/notes/:id`: like `find`, the first of the caller's notes
        with that id. */
    function GetNote(id: string, userId: string): (r: Answer)
      reads this
      ensures r.NoteAnswer? ==> r.note in notes && r.note.id == id && r.note.userId == userId
      ensures r.NoteAnswer? ==> NoteIndex(notes, id, userId) >= 0 && r.note == notes[NoteIndex(notes, id, userId)]
      ensures r.Fail? <==> forall k :: 0 <= k < |notes| ==> !(notes[k].id == id && notes[k].userId == userId)
    {
      var i := NoteIndex(notes, id, userId);
      if i >= 0 then NoteAnswer(notes[i]) else Fail(404, "Notiz nicht gefunden.")
    }

    /** `POST /api/notes`: missing or empty content is refused with 400;
        otherwise exactly one unpinned note of the caller is appended. */
    method CreateNote(userId: string, content: Option<string>, tags: Option<string>, color: Option<string>,
                      files: seq<string>, newId: string, now: int) returns (r: Answer)
      modifies this
      ensures !Truthy(content) ==> r == Fail(400, "Inhalt ist erforderlich.") && unchanged(this)
      ensures Truthy(content) ==>
        var n := Note(newId, userId, content.value, TagsOr(tags, []), files, now, false, OrElse(color, DefaultColor));
        r == NoteAnswer(n) && notes == old(notes) + [n] && users == old(users)
    {
      if !Truthy(content) {
        return Fail(400, "Inhalt ist erforderlich.");
      }
      var n := Note(newId, userId, content.value, TagsOr(tags, []), files, now, false, OrElse(color, DefaultColor));
      notes := notes + [n];
      r := NoteAnswer(n);
    }

    /** `PUT /api/notes/:id`. */
    method UpdateNote(id: string, userId: string, content: Option<string>, tags: Option<string>,
                      color: Option<string>, files: seq<string>) returns (r: Answer)
      modifies this
      ensures users == old(users)
      ensures NoteIndex(old(notes), id, userId) == -1 ==>
        r == Fail(404, "Notiz nicht gefunden.") && notes == old(notes)
      ensures NoteIndex(old(notes), id, userId) >= 0 ==>
        var i := NoteIndex(old(notes), id, userId);
        var n := UpdatedNote(old(notes)[i], content, tags, color, files);
        r == NoteAnswer(n) && notes == old(notes)[i := n]
    {
      var i := NoteIndex(notes, id, userId);
      if i == -1 {
        return Fail(404, "Notiz nicht gefunden.");
      }
      var n := notes[i];
      n := n.(content := Coalesce(content, n.content));
      n := n.(tags := TagsOr(tags, n.tags));
      n := n.(color := Coalesce(color, n.color));
      if |files| > 0 {
        n := n.(images := n.images + files);
      }
      assert files == [] ==> n.images == n.images + files;
      notes := notes[i := n];
      r := NoteAnswer(n);
    }

    /** `DELETE /api/notes/:id`: the caller must own a note with that id.
        The image files are unlinked best-effort, which does not affect the
        store. */
    method DeleteNote(id: string, userId: string) returns (r: Answer)
      modifies this
      ensures users == old(users)
      ensures NoteIndex(old(notes), id, userId) == -1 ==>
        r == Fail(404, "Notiz nicht gefunden.") && notes == old(notes)
      ensures NoteIndex(old(notes), id, userId) >= 0 ==>
        r == Done && notes == WithoutId(old(notes), id)
    {
      var i := NoteIndex(notes, id, userId);
      if i == -1 {
        return Fail(404, "Notiz nicht gefunden.");
      }
      notes := WithoutId(notes, id);
      r := Done;
    }

    /** `DELETE /api/notes/:id/images/:filename`; `unlinkOk` is whether the
        file could be removed from disk. The store is written only after a
        successful unlink. */
    method DeleteImage(id: string, userId: string, filename: string, unlinkOk: bool) returns (r: Answer)
      modifies this
      ensures users == old(users)
      ensures NoteIndex(old(notes), id, userId) == -1 ==>
        r == Fail(404, "Notiz nicht gefunden") && notes == old(notes)
      ensures NoteIndex(old(notes), id, userId) >= 0 ==>
        var i := NoteIndex(old(notes), id, userId);
        && (filename !in old(notes)[i].images ==>
              r == Fail(404, "Bild nicht in Notiz gefunden") && notes == old(notes))
        && (filename in old(notes)[i].images && !unlinkOk ==>
              r == Fail(500, "Bild konnte nicht gelöscht werden") && notes == old(notes))
        && (filename in old(notes)[i].images && unlinkOk ==>
              r == Done &&
              notes == old(notes)[i := old(notes)[i].(images := RemoveFirst(old(notes)[i].images, filename))])
    {
      var i := NoteIndex(notes, id, userId);
      if i == -1 {
        return Fail(404, "Notiz nicht gefunden");
      }
      var images := notes[i].images;
      var k := FindIndex(images, x => x == filename);
      if k > -1 {
        if !unlinkOk {
          return Fail(500, "Bild konnte nicht gelöscht werden");
        }
        assert images[..k] + images[k + 1..] == RemoveFirst(images, filename);
        notes := notes[i := notes[i].(images := images[..k] + images[k + 1..])];
        r := Done;
      } else {
        r := Fail(404, "Bild nicht in Notiz gefunden");
      }
    }

    /** `PUT /api/notes/:id/pin`. */
    method TogglePin(id: string, userId: string) returns (r: Answer)
      modifies this
      ensures users == old(users)
      ensures NoteIndex(old(notes), id, userId) == -1 ==>
        r == Fail(404, "Notiz nicht gefunden.") && notes == old(notes)
      ensures NoteIndex(old(notes), id, userId) >= 0 ==>
        var i := NoteIndex(old(notes), id, userId);
        notes == PinToggled(old(notes), i) && r == PinAnswer(notes[i].isPinned)
    {
      var i := NoteIndex(notes, id, userId);
      if i == -1 {
        return Fail(404, "Notiz nicht gefunden.");
      }
      notes := notes[i := notes[i].(isPinned := !notes[i].isPinned)];
      r := PinAnswer(notes[i].isPinned);
    }
  }
}
