/** The page builder of Html_Generator-JS/app.js. In the browser, an element
    list is edited through a form (`addElement`, `editElement`,
    `saveElement`, `deleteElement`), each element is listed with a shortened
    content, and the preview is the HTML of all elements in order. The
    server keeps saved designs by name (`/save`, `/load`). The DOM itself,
    the CSS and script editors are not modelled: an element is the record the
    form produces. */
module HtmlGenerator {
  import opened Common
  import opened Strings

  /** `{ type, content, color, bgColor, src, href }` as `saveElement` builds
      it from the form fields. */
  datatype Element = Element(kind: string, content: string, color: string, bgColor: string,
                             src: string, href: string)

  // ---------------------------------------------------------------------
  // The element list

  /** The array after `saveElement`: with `editing >= 0` the element there
      is replaced, otherwise the new element is pushed. */
  function Saved<T>(s: seq<T>, editing: int, e: T): (r: seq<T>)
    requires editing < |s|
    ensures editing >= 0 ==> |r| == |s| && r[editing] == e
    ensures editing >= 0 ==> forall k :: 0 <= k < |s| && k != editing ==> r[k] == s[k]
    ensures editing < 0 ==> |r| == |s| + 1 && r[|s|] == e
    ensures editing < 0 ==> forall k :: 0 <= k < |s| ==> r[k] == s[k]
  {
    if editing >= 0 then s[editing := e] else s + [e]
  }

  /** Where `splice(index, 1)` starts on an array of length `len`: a
      negative index counts from the end, and the start is clamped to
      `0..len`. */
  function SpliceStart(len: nat, index: int): (r: nat)
    ensures r <= len
    ensures 0 <= index <= len ==> r == index
    ensures index > len ==> r == len
    ensures index < 0 && len + index >= 0 ==> r == len + index
    ensures len + index < 0 ==> r == 0
  {
    if index < 0 then (if len + index < 0 then 0 else len + index)
    else if index > len then len
    else index
  }

  /** The array after `splice(index, 1)`: the element at the start
      position goes, the earlier ones stay and the later ones move down by
      one; a start at the end removes nothing. */
  function Spliced<T>(s: seq<T>, index: int): (r: seq<T>)
    ensures var p := SpliceStart(|s|, index);
      p < |s| ==> |r| == |s| - 1 &&
                  (forall k :: 0 <= k < p ==> r[k] == s[k]) &&
                  (forall k :: p <= k < |r| ==> r[k] == s[k + 1])
    ensures SpliceStart(|s|, index) == |s| ==> r == s
  {
    var p := SpliceStart(|s|, index);
    if p < |s| then s[..p] + s[p + 1..] else s
  }

  /** Splicing takes out exactly one element, the one at the start, when
      the start lies inside the array. */
  lemma SplicedRemovesOne<T>(s: seq<T>, index: int)
    requires SpliceStart(|s|, index) < |s|
    ensures multiset(Spliced(s, index)) + multiset{s[SpliceStart(|s|, index)]} == multiset(s)
  {
    var p := SpliceStart(|s|, index);
    assert s == s[..p] + [s[p]] + s[p + 1..];
  }

  /** The editing index after the element at `p` has been removed from an
      array of length `len`: it follows its element down when an earlier
      one goes, and editing ends when its own element goes. */
  function Adjusted(editing: int, p: nat, len: nat): (r: int)
    requires -1 <= editing < len
    ensures -1 <= r
    ensures p < len ==> r < len - 1
    ensures p >= len ==> r == editing
  {
    if p >= len then editing
    else if editing == p then -1
    else if editing > p then editing - 1
    else editing
  }

  /** After a delete, the adjusted index still designates the element that
      was being edited, and it is -1 exactly when that element was the one
      deleted. */
  lemma EditedElementTracked<T>(s: seq<T>, editing: int, index: int)
    requires 0 <= editing < |s|
    ensures var p := SpliceStart(|s|, index);
      var r := Adjusted(editing, p, |s|);
      (r == -1 <==> p == editing) && (r >= 0 ==> Spliced(s, index)[r] == s[editing])
  {
    var p := SpliceStart(|s|, index);
    var t := Spliced(s, index);
    if p < |s| && editing > p {
      assert t[editing - 1] == s[editing];
    } else if p < |s| && editing < p {
      assert t[editing] == s[editing];
    }
  }

  /** Editing element `i`, deleting element `j` and saving `x` gives the
      same array as saving `x` over element `i` first and deleting `j`
      afterwards; when `j` is the edited element itself the edit is over
      and `x` is appended. */
  lemma EditDeleteSave<T>(s: seq<T>, i: nat, j: nat, x: T)
    requires i < |s| && j < |s|
    ensures i != j ==> Saved(Spliced(s, j), Adjusted(i, j, |s|), x) == Spliced(Saved(s, i, x), j)
    ensures i == j ==> Saved(Spliced(s, j), Adjusted(i, j, |s|), x) == Spliced(s, j) + [x]
  {
    var lhs := Saved(Spliced(s, j), Adjusted(i, j, |s|), x);
    var rhs := Spliced(Saved(s, i, x), j);
    if i != j {
      assert |lhs| == |rhs|;
      forall k | 0 <= k < |lhs| ensures lhs[k] == rhs[k] {
        if k < j {
          assert rhs[k] == s[i := x][k];
        } else {
          assert rhs[k] == s[i := x][k + 1];
        }
      }
    }
  }

  /** The editor state of the page: the element array and the index of the
      element under edit, -1 when a new element is being added. */
  class Editor {
    var elements: seq<Element>
    var editingIndex: int

    /** The editing index is -1 or designates an element. */
    ghost predicate Valid()
      reads this
    {
      -1 <= editingIndex < |elements|
    }

    /** The page starts with no elements and no edit. */
    constructor()
      ensures Valid()
      ensures elements == [] && editingIndex == -1
    {
      elements, editingIndex := [], -1;
    }

    /** `addElement(type)`: the form is opened for a new element. */
    method AddElement()
      modifies this
      requires Valid()
      ensures Valid()
      ensures editingIndex == -1 && elements == old(elements)
    {
      editingIndex := -1;
    }

    /** `editElement(index)`: the form is filled from `elements[index]` and
      editing starts there. An index with no element makes the form code
      fail on `undefined` before the index is recorded, so nothing
      changes. */
    method EditElement(index: int)
      modifies this
      requires Valid()
      ensures Valid()
      ensures elements == old(elements)
      ensures 0 <= index < |elements| ==> editingIndex == index
      ensures !(0 <= index < |elements|) ==> editingIndex == old(editingIndex)
    {
      if 0 <= index < |elements| {
        editingIndex := index;
      }
    }

    /** `saveElement()`: replace the edited element or push a new one; the
      editing index is left as it is. */
    method SaveElement(e: Element)
      modifies this
      requires Valid()
      ensures Valid()
      ensures elements == Saved(old(elements), old(editingIndex), e)
      ensures editingIndex == old(editingIndex)
    {
      if editingIndex >= 0 {
        elements := elements[editingIndex := e];
      } else {
        elements := elements + [e];
      }
    }

    /** `deleteElement(index)`: `splice(index, 1)`, with the editing index
      moved along with its element (the correction of the finding below). */
    method DeleteElement(index: int)
      modifies this
      requires Valid()
      ensures Valid()
      ensures elements == Spliced(old(elements), index)
      ensures editingIndex == Adjusted(old(editingIndex), SpliceStart(|old(elements)|, index), |old(elements)|)
    {
      var p := SpliceStart(|elements|, index);
      editingIndex := Adjusted(editingIndex, p, |elements|);
      elements := Spliced(elements, index);
    }

    /** `updatePreview()`: the HTML of the current elements. */
    method UpdatePreview() returns (html: string)
      ensures html == Preview(elements)
    {
      html := BuildPreview(elements);
    }
  }

  // ---------------------------------------------------------------------
  // The stale editing index, as written

  /** A slot of a JavaScript array: assigning past the end leaves holes. */
  datatype Slot = Hole | Filled(element: Element)

  /** `n` holes. */
  function Holes(n: nat): (r: seq<Slot>)
    ensures |r| == n && forall k :: 0 <= k < n ==> r[k] == Hole
  {
    if n == 0 then [] else [Hole] + Holes(n - 1)
  }

  /** `saveElement` as written on a JavaScript array: an editing index at
      or past the end writes there, padding the array with holes. */
  function SaveAsWritten(s: seq<Slot>, editing: int, e: Element): (r: seq<Slot>)
    ensures 0 <= editing < |s| ==> r == s[editing := Filled(e)]
    ensures editing >= |s| ==> |r| == editing + 1 && r[..|s|] == s && r[editing] == Filled(e)
    ensures editing >= |s| ==> forall k :: |s| <= k < editing ==> r[k] == Hole
    ensures editing < 0 ==> r == s + [Filled(e)]
  {
    if editing < 0 then s + [Filled(e)]
    else if editing < |s| then s[editing := Filled(e)]
    else s + Holes(editing - |s|) + [Filled(e)]
  }

  /** With the source's `deleteElement`, which keeps the editing index, a
      delete between `editElement(2)` and `saveElement()` keeps the edited
      element: editing the third of three elements, deleting the first and
      saving appends the new element after the old third one instead of
      replacing it. */
  lemma StaleEditAfterDelete(a: Element, b: Element, c: Element, x: Element)
    ensures SaveAsWritten(Spliced([Filled(a), Filled(b), Filled(c)], 0), 2, x) == [Filled(b), Filled(c), Filled(x)]
  {
    var s := [Filled(a), Filled(b), Filled(c)];
    assert Spliced(s, 0) == [Filled(b), Filled(c)];
  }

  /** Deleting twice before the save even leaves a hole in the array. */
  lemma StaleEditLeavesHole(a: Element, b: Element, c: Element, x: Element)
    ensures SaveAsWritten(Spliced(Spliced([Filled(a), Filled(b), Filled(c)], 0), 0), 2, x) == [Filled(c), Hole, Filled(x)]
  {
    var s := [Filled(a), Filled(b), Filled(c)];
    assert Spliced(s, 0) == [Filled(b), Filled(c)];
    assert Spliced([Filled(b), Filled(c)], 0) == [Filled(c)];
    assert Holes(1) == [Hole];
  }

  // ---------------------------------------------------------------------
  // The element list view

  /** `shortContent` of `updateElementsList`: content longer than 20
      characters is cut to its first 20 and followed by `...`. */
  function ShortContent(content: string): (r: string)
    ensures |r| <= 23
    ensures |content| <= 20 ==> r == content
    ensures |content| > 20 ==> |r| == 23 && r[..20] == content[..20] && r[20..] == "..."
  {
    if |content| > 20 then content[..20] + "..." else content
  }

  /** Shortening an already shortened content changes nothing. */
  lemma ShortContentIdempotent(content: string)
    ensures ShortContent(ShortContent(content)) == ShortContent(content)
  {
    var r := ShortContent(content);
    if |content| > 20 {
      assert r == r[..20] + r[20..];
    }
  }

  // ---------------------------------------------------------------------
  // The preview

  /** The tag each known element type is rendered with; "" for a type the
      `switch` of `updatePreview` has no case for. */
  function TagOf(kind: string): string {
    if kind == "heading" then "h1"
    else if kind == "paragraph" then "p"
    else if kind == "button" then "button"
    else if kind == "image" then "img"
    else if kind == "link" then "a"
    else ""
  }

  /** `'element-' + index`. */
  function ElementId(index: nat): (r: string)
    ensures StartsWith(r, "element-")
  {
    "element-" + NatToString(index)
  }

  /** Different positions get different ids. */
  lemma ElementIdInjective(m: nat, n: nat)
    requires ElementId(m) == ElementId(n)
    ensures m == n
  {
    assert NatToString(m) == ElementId(m)[8..];
    assert NatToString(n) == ElementId(n)[8..];
    NatToStringInjective(m, n);
  }

  /** The opening tag shared by all fragments:
      `<tag id="…"` then the extra attributes, then `style="…">`. */
  function OpenTag(tag: string, id: string, attrs: string, style: string): string {
    "<" + tag + " id=\"" + id + "\"" + attrs + " style=\"" + style + "\">"
  }

  lemma OpenTagStart(tag: string, id: string, attrs: string, style: string, rest: string)
    ensures StartsWith(OpenTag(tag, id, attrs, style) + rest, "<" + tag + " id=\"" + id + "\"")
  {
    var p := "<" + tag + " id=\"" + id + "\"";
    assert OpenTag(tag, id, attrs, style) + rest == p + (attrs + " style=\"" + style + "\">" + rest);
  }

  /** `color: …; background-color: …;` */
  function ColorStyle(e: Element): string {
    "color: " + e.color + "; background-color: " + e.bgColor + ";"
  }

  /** What one element adds to the preview at position `index`. Heading,
      paragraph, button and link wrap the content in their tag with the
      colour styles, a link adds `href`; an image is a lone `<img>` whose
      `src` is the element's and whose `alt` is the content. */
  function Fragment(e: Element, index: nat): (r: string)
    ensures r == "" <==> TagOf(e.kind) == ""
    ensures r != "" ==> StartsWith(r, "<" + TagOf(e.kind) + " id=\"" + ElementId(index) + "\"")
    ensures TagOf(e.kind) !in {"", "img"} ==> EndsWith(r, e.content + "</" + TagOf(e.kind) + ">")
    ensures TagOf(e.kind) !in {"", "img"} ==> Contains(r, " style=\"" + ColorStyle(e) + "\">")
    ensures TagOf(e.kind) == "a" ==> Contains(r, " href=\"" + e.href + "\"")
    ensures TagOf(e.kind) == "img" ==> Contains(r, " src=\"" + e.src + "\" alt=\"" + e.content + "\"")
    ensures TagOf(e.kind) == "img" ==> Contains(r, "background-color: " + e.bgColor + ";\">")
  {
    var tag := TagOf(e.kind);
    if tag == "" then ""
    else if tag == "img" then ImageTag(e, ElementId(index))
    else WrappedTag(e, tag, ElementId(index))
  }

  /** `<img id="…" src="…" alt="…" style="…">`. */
  function ImageTag(e: Element, id: string): (r: string)
    ensures StartsWith(r, "<img id=\"" + id + "\"")
    ensures Contains(r, " src=\"" + e.src + "\" alt=\"" + e.content + "\"")
    ensures Contains(r, "background-color: " + e.bgColor + ";\">")
  {
    var attrs := " src=\"" + e.src + "\" alt=\"" + e.content + "\"";
    var sized := "max-width: 100%; height: auto; ";
    var bg := "background-color: " + e.bgColor + ";\">";
    var style := sized + "background-color: " + e.bgColor + ";";
    var head := "<img id=\"" + id + "\"";
    OpenTagStart("img", id, attrs, style, "");
    assert OpenTag("img", id, attrs, style) + "" == OpenTag("img", id, attrs, style);
    OpenTagPieces("img", id, attrs, style);
    ContainsMiddle(head, attrs, " style=\"" + style + "\">");
    StyleTail(head + attrs, sized, e.bgColor);
    OpenTag("img", id, attrs, style)
  }

  /** `<tag id="…" [href="…"] style="…">content</tag>`. */
  function WrappedTag(e: Element, tag: string, id: string): (r: string)
    ensures StartsWith(r, "<" + tag + " id=\"" + id + "\"")
    ensures EndsWith(r, e.content + "</" + tag + ">")
    ensures Contains(r, " style=\"" + ColorStyle(e) + "\">")
    ensures tag == "a" ==> Contains(r, " href=\"" + e.href + "\"")
  {
    var attrs := if tag == "a" then " href=\"" + e.href + "\"" else "";
    var open := OpenTag(tag, id, attrs, ColorStyle(e));
    var rest := e.content + ("</" + tag + ">");
    var head := "<" + tag + " id=\"" + id + "\"";
    var styled := " style=\"" + ColorStyle(e) + "\">";
    assert StartsWith(open + rest, head) by {
      OpenTagStart(tag, id, attrs, ColorStyle(e), rest);
    }
    assert EndsWith(open + rest, rest) by {
      EndsWithAppend(open, rest);
    }
    assert Contains(open + rest, styled) by {
      OpenTagPieces(tag, id, attrs, ColorStyle(e));
      ContainsMiddle(head + attrs, styled, rest);
    }
    assert Contains(open + rest, attrs) by {
      OpenTagPieces(tag, id, attrs, ColorStyle(e));
      ConcatAssoc(head + attrs, styled, rest);
      ContainsMiddle(head, attrs, styled + rest);
    }
    open + rest
  }

  lemma OpenTagPieces(tag: string, id: string, attrs: string, style: string)
    ensures OpenTag(tag, id, attrs, style) == ("<" + tag + " id=\"" + id + "\"") + attrs + (" style=\"" + style + "\">")
  {
    var p := "<" + tag + " id=\"" + id + "\"";
    ConcatAssoc(p + attrs + " style=\"", style, "\">");
    ConcatAssoc(p + attrs, " style=\"", style + "\">");
  }

  /** The image style ends with the background colour and the tag's `">`. */
  lemma StyleTail(front: string, sized: string, bgColor: string)
    ensures Contains(front + (" style=\"" + (sized + "background-color: " + bgColor + ";") + "\">"),
                     "background-color: " + bgColor + ";\">")
  {
    var bg := "background-color: " + bgColor + ";\">";
    var whole := front + (" style=\"" + (sized + "background-color: " + bgColor + ";") + "\">");
    assert whole == front + " style=\"" + sized + bg;
    assert whole == (front + " style=\"" + sized) + bg + "";
    ContainsMiddle(front + " style=\"" + sized, bg, "");
  }

  /** `s.includes(t)`. */
  predicate Contains(s: string, t: string) {
    exists i :: 0 <= i <= |s| - |t| && ContainsAt(s, t, i)
  }

  predicate ContainsAt(s: string, t: string, i: int) {
    0 <= i <= |s| - |t| && s[i..i + |t|] == t
  }

  lemma ContainsMiddle(a: string, t: string, b: string)
    ensures Contains(a + t + b, t)
  {
    assert (a + t + b)[|a|..|a| + |t|] == t;
    assert ContainsAt(a + t + b, t, |a|);
  }

  /** `s.endsWith(suffix)`. */
  predicate EndsWith(s: string, suffix: string) {
    |suffix| <= |s| && s[|s| - |suffix|..] == suffix
  }

  lemma EndsWithAppend(a: string, b: string)
    ensures EndsWith(a + b, b)
  {
    assert (a + b)[|a|..] == b;
  }

  /** The fragment of every element, each at its own position. */
  function Fragments(s: seq<Element>): (r: seq<string>)
    ensures |r| == |s|
    ensures forall k :: 0 <= k < |s| ==> r[k] == Fragment(s[k], k)
  {
    seq(|s|, k requires 0 <= k < |s| => Fragment(s[k], k))
  }

  /** Strings concatenated in order. */
  function Flatten(parts: seq<string>): string {
    if parts == [] then "" else parts[0] + Flatten(parts[1..])
  }

  /** The `html` that `updatePreview` builds: the fragments in list
      order. */
  function Preview(s: seq<Element>): string {
    Flatten(Fragments(s))
  }

  lemma {:induction false} FlattenAppend(a: seq<string>, b: seq<string>)
    ensures Flatten(a + b) == Flatten(a) + Flatten(b)
  {
    if a == [] {
      assert a + b == b;
    } else {
      assert (a + b)[1..] == a[1..] + b;
      FlattenAppend(a[1..], b);
    }
  }

  lemma FlattenSingle(x: string)
    ensures Flatten([x]) == x
  {
    assert [x][1..] == [];
  }

  /** The fragments of a prefix are a prefix of the fragments: adding
      elements at the end never renumbers the earlier ones. */
  lemma FragmentsPrefix(s: seq<Element>, k: nat)
    requires k <= |s|
    ensures Fragments(s[..k]) == Fragments(s)[..k]
  {
  }

  lemma FlattenAt(parts: seq<string>, k: nat)
    requires k < |parts|
    ensures Flatten(parts) == Flatten(parts[..k]) + parts[k] + Flatten(parts[k + 1..])
  {
    assert parts == parts[..k] + parts[k..];
    FlattenAppend(parts[..k], parts[k..]);
    assert parts[k..][1..] == parts[k + 1..];
  }

  /** Element `k` contributes its own fragment, with id `element-k`,
      right after the preview of the elements before it and before the
      fragments of the elements after it. */
  lemma FragmentAt(s: seq<Element>, k: nat)
    requires k < |s|
    ensures Preview(s) == Preview(s[..k]) + Fragment(s[k], k) + Flatten(Fragments(s)[k + 1..])
  {
    FlattenAt(Fragments(s), k);
    FragmentsPrefix(s, k);
  }

  /** An element of unknown type adds nothing, though it still uses up its
      position in the numbering. */
  lemma UnknownTypeInvisible(s: seq<Element>, k: nat)
    requires k < |s| && TagOf(s[k].kind) == ""
    ensures Preview(s) == Preview(s[..k]) + Flatten(Fragments(s)[k + 1..])
  {
    FragmentAt(s, k);
  }

  /** The preview of a longer list extends the preview of a shorter one:
      appending an element appends exactly its fragment. */
  lemma PreviewSnoc(s: seq<Element>, e: Element)
    ensures Preview(s + [e]) == Preview(s) + Fragment(e, |s|)
  {
    var t := s + [e];
    FragmentsPrefix(t, |s|);
    assert t[..|s|] == s;
    assert Fragments(t) == Fragments(t)[..|s|] + [Fragment(e, |s|)];
    FlattenAppend(Fragments(t)[..|s|], [Fragment(e, |s|)]);
    FlattenSingle(Fragment(e, |s|));
  }

  /** The `forEach` of `updatePreview`, appending each fragment to
      `html`. */
  method BuildPreview(elements: seq<Element>) returns (html: string)
    ensures html == Preview(elements)
  {
    html := "";
    var i := 0;
    while i < |elements|
      invariant 0 <= i <= |elements|
      invariant html == Preview(elements[..i])
    {
      PreviewSnoc(elements[..i], elements[i]);
      assert elements[..i + 1] == elements[..i] + [elements[i]];
      html := html + Fragment(elements[i], i);
      i := i + 1;
    }
    assert elements[..i] == elements;
  }

  // ---------------------------------------------------------------------
  // The server's design store

  /** `{ elements, css, js }` as `/save` stores it. */
  datatype Design = Design(elements: seq<Element>, css: string, js: string)

  /** The answer of `/load`. */
  datatype LoadAnswer = Loaded(design: Design) | LoadFailed(status: nat, error: string)

  /** `/load?name=…`: the saved design, or 404 when none is saved under the
      name. */
  function LoadFrom(designs: map<string, Design>, name: string): (r: LoadAnswer)
    ensures r.Loaded? <==> name in designs
    ensures r.Loaded? ==> r.design == designs[name]
    ensures r.LoadFailed? ==> r == LoadFailed(404, "Design nicht gefunden")
  {
    if name in designs then Loaded(designs[name]) else LoadFailed(404, "Design nicht gefunden")
  }

  /** Loading after saving under the same name gives the saved design;
      saving under one name leaves what loads under every other name. */
  lemma LoadAfterSave(designs: map<string, Design>, name: string, d: Design, other: string)
    ensures LoadFrom(designs[name := d], name) == Loaded(d)
    ensures other != name ==> LoadFrom(designs[name := d], other) == LoadFrom(designs, other)
  {
  }

  /** A later save under the same name overwrites the earlier one. */
  lemma SaveOverwrites(designs: map<string, Design>, name: string, d1: Design, d2: Design, other: string)
    ensures LoadFrom(designs[name := d1][name := d2], other) == LoadFrom(designs[name := d2], other)
  {
  }

  /** `savedDesigns` of the server. */
  class DesignServer {
    var designs: map<string, Design>

    constructor()
      ensures designs == map[]
    {
      designs := map[];
    }

    /** `POST /save`: store the design under its name and confirm. */
    method Save(name: string, d: Design) returns (message: string)
      modifies this
      ensures designs == old(designs)[name := d]
      ensures message == "Design \"" + name + "\" gespeichert!"
    {
      designs := designs[name := d];
      message := "Design \"" + name + "\" gespeichert!";
    }

    /** `GET /load`. */
    method Load(name: string) returns (r: LoadAnswer)
      ensures r == LoadFrom(designs, name)
    {
      if name in designs {
        r := Loaded(designs[name]);
      } else {
        r := LoadFailed(404, "Design nicht gefunden");
      }
    }
  }
}
