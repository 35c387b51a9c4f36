/** The `DynamicHead` component: it applies a declarative description of the
    page's title, `meta` tags and `link` tags to the shared document head, and
    retracts what it inserted. Every element it inserts carries the ownership
    marker, and every apply cycle starts by removing all marked elements. */
module DynamicHeadComponent {
  import opened Dom

  /** One entry of the `meta` prop; a field left out of the entry is `None`. */
  datatype MetaEntry = MetaEntry(name: Option<string>, content: Option<string>)

  /** One entry of the `link` prop. */
  datatype LinkEntry = LinkEntry(rel: Option<string>, href: Option<string>)

  /** The component's props; an omitted prop is `None`. */
  datatype Props = Props(title: Option<string>, meta: Option<seq<MetaEntry>>, link: Option<seq<LinkEntry>>)

  /** JavaScript truthiness of an optional string: present and non-empty. */
  predicate Truthy(v: Option<string>) {
    v.Some? && v.value != ""
  }

  /** The destructuring defaults `meta = []` and `link = []`. */
  function MetaList(p: Props): seq<MetaEntry> {
    if p.meta.Some? then p.meta.value else []
  }

  function LinkList(p: Props): seq<LinkEntry> {
    if p.link.Some? then p.link.value else []
  }

  /** An entry yields a tag only when both of its fields are truthy. */
  predicate UsableMeta(m: MetaEntry) {
    Truthy(m.name) && Truthy(m.content)
  }

  predicate UsableLink(l: LinkEntry) {
    Truthy(l.rel) && Truthy(l.href)
  }

  /** The `<meta name content data-dynamic-head="true">` element the component creates. */
  function MetaTag(name: string, content: string): Element {
    Element(Meta, map["name" := name, "content" := content, MarkerAttribute := MarkerValue])
  }

  /** The `<link rel href data-dynamic-head="true">` element the component creates. */
  function LinkTag(rel: string, href: string): Element {
    Element(Link, map["rel" := rel, "href" := href, MarkerAttribute := MarkerValue])
  }

  /** The elements appended for a `meta` list, in input order. */
  function MetaTags(entries: seq<MetaEntry>): seq<Element> {
    if entries == [] then []
    else
      (if UsableMeta(entries[0]) then [MetaTag(entries[0].name.value, entries[0].content.value)] else [])
      + MetaTags(entries[1..])
  }

  /** The elements appended for a `link` list, in input order. */
  function LinkTags(entries: seq<LinkEntry>): seq<Element> {
    if entries == [] then []
    else
      (if UsableLink(entries[0]) then [LinkTag(entries[0].rel.value, entries[0].href.value)] else [])
      + LinkTags(entries[1..])
  }

  /** Everything one apply cycle appends: the meta tags, then the link tags. */
  function InsertedTags(p: Props): seq<Element> {
    MetaTags(MetaList(p)) + LinkTags(LinkList(p))
  }

  /** The document after the removal step. */
  function Removed(s: DocumentState): DocumentState {
    DocumentState(Unmarked(s.head), s.title)
  }

  /** The document after one apply cycle with props `p`. */
  function Updated(s: DocumentState, p: Props): DocumentState {
    DocumentState(Unmarked(s.head) + InsertedTags(p), if Truthy(p.title) then p.title.value else s.title)
  }

  class DynamicHead {
    var props: Props
    const document: Document

    constructor (document: Document, props: Props)
      ensures this.document == document && this.props == props
    {
      this.document := document;
      this.props := props;
    }

    method ComponentDidMount()
      modifies document
      ensures document.State() == Updated(old(document.State()), props)
    {
      UpdateHead();
    }

    /** Runs after the host framework has installed the new props. */
    method ComponentDidUpdate()
      modifies document
      ensures document.State() == Updated(old(document.State()), props)
    {
      UpdateHead();
    }

    method ComponentWillUnmount()
      modifies document
      ensures document.State() == Removed(old(document.State()))
    {
      RemoveHead();
    }

    method UpdateHead()
      modifies document
      ensures document.head == Unmarked(old(document.head)) + InsertedTags(props)
      ensures Truthy(props.title) ==> document.title == props.title.value
      ensures !Truthy(props.title) ==> document.title == old(document.title)
      ensures document.State() == Updated(old(document.State()), props)
    {
      RemoveHead();
      var title, meta, link := props.title, MetaList(props), LinkList(props);
      if Truthy(title) {
        document.title := title.value;
      }
      ghost var cleaned := document.head;
      for i := 0 to |meta|
        invariant document.head == cleaned + MetaTags(meta[..i])
        invariant document.title == old(if Truthy(title) then title.value else document.title)
      {
        var entry := meta[i];
        MetaTagsSnoc(meta[..i], entry);
        assert meta[..i + 1] == meta[..i] + [entry];
        if Truthy(entry.name) && Truthy(entry.content) {
          document.head := document.head + [MetaTag(entry.name.value, entry.content.value)];
        }
      }
      assert meta[..|meta|] == meta;
      ghost var withMeta := document.head;
      for i := 0 to |link|
        invariant document.head == withMeta + LinkTags(link[..i])
        invariant document.title == old(if Truthy(title) then title.value else document.title)
      {
        var entry := link[i];
        LinkTagsSnoc(link[..i], entry);
        assert link[..i + 1] == link[..i] + [entry];
        if Truthy(entry.rel) && Truthy(entry.href) {
          document.head := document.head + [LinkTag(entry.rel.value, entry.href.value)];
        }
      }
      assert link[..|link|] == link;
    }

    /** Takes a snapshot of the head (the static result of the selector query)
        and deletes every marked node from the live head, one at a time. */
    method RemoveHead()
      modifies document
      ensures document.head == Unmarked(old(document.head))
      ensures document.title == old(document.title)
    {
      var nodes := document.head;
      var i, j := 0, 0;
      while i < |nodes|
        invariant i <= |nodes|
        invariant j == |Unmarked(nodes[..i])|
        invariant document.head == Unmarked(nodes[..i]) + nodes[i..]
        invariant document.title == old(document.title)
      {
        UnmarkedSnoc(nodes[..i], nodes[i]);
        assert nodes[..i + 1] == nodes[..i] + [nodes[i]];
        assert document.head[j] == nodes[i];
        if IsMarked(nodes[i]) {
          document.head := document.head[..j] + document.head[j + 1..];
        } else {
          j := j + 1;
        }
        i := i + 1;
      }
      assert nodes[..i] == nodes;
    }
  }

  lemma {:induction false} MetaTagsAppend(a: seq<MetaEntry>, b: seq<MetaEntry>)
    ensures MetaTags(a + b) == MetaTags(a) + MetaTags(b)
  {
    if a == [] {
      assert a + b == b;
    } else {
      assert (a + b)[1..] == a[1..] + b;
      MetaTagsAppend(a[1..], b);
    }
  }

  lemma {:induction false} LinkTagsAppend(a: seq<LinkEntry>, b: seq<LinkEntry>)
    ensures LinkTags(a + b) == LinkTags(a) + LinkTags(b)
  {
    if a == [] {
      assert a + b == b;
    } else {
      assert (a + b)[1..] == a[1..] + b;
      LinkTagsAppend(a[1..], b);
    }
  }

  /** One more entry appends one tag when the entry is usable, nothing otherwise. */
  lemma MetaTagsSnoc(entries: seq<MetaEntry>, m: MetaEntry)
    ensures MetaTags(entries + [m])
         == MetaTags(entries) + (if UsableMeta(m) then [MetaTag(m.name.value, m.content.value)] else [])
  {
    MetaTagsAppend(entries, [m]);
    assert [m][1..] == [];
  }

  lemma LinkTagsSnoc(entries: seq<LinkEntry>, l: LinkEntry)
    ensures LinkTags(entries + [l])
         == LinkTags(entries) + (if UsableLink(l) then [LinkTag(l.rel.value, l.href.value)] else [])
  {
    LinkTagsAppend(entries, [l]);
    assert [l][1..] == [];
  }

  /** With every field present, there is exactly one meta tag per entry, in
      order, carrying that entry's name and content and the marker. */
  lemma {:induction false} MetaTagsOnePerEntry(entries: seq<MetaEntry>)
    requires forall i :: 0 <= i < |entries| ==> UsableMeta(entries[i])
    ensures |MetaTags(entries)| == |entries|
    ensures forall i :: 0 <= i < |entries| ==>
      UsableMeta(entries[i]) && MetaTags(entries)[i] == MetaTag(entries[i].name.value, entries[i].content.value)
  {
    if entries != [] {
      MetaTagsOnePerEntry(entries[1..]);
      assert forall i :: 1 <= i < |entries| ==> MetaTags(entries)[i] == MetaTags(entries[1..])[i - 1];
    }
  }

  lemma {:induction false} LinkTagsOnePerEntry(entries: seq<LinkEntry>)
    requires forall i :: 0 <= i < |entries| ==> UsableLink(entries[i])
    ensures |LinkTags(entries)| == |entries|
    ensures forall i :: 0 <= i < |entries| ==>
      UsableLink(entries[i]) && LinkTags(entries)[i] == LinkTag(entries[i].rel.value, entries[i].href.value)
  {
    if entries != [] {
      LinkTagsOnePerEntry(entries[1..]);
      assert forall i :: 1 <= i < |entries| ==> LinkTags(entries)[i] == LinkTags(entries[1..])[i - 1];
    }
  }

  /** Entries missing a name or a content (or with an empty one) produce nothing,
      and a list yields no tag at all exactly when none of its entries is usable. */
  lemma {:induction false} MetaTagsEmpty(entries: seq<MetaEntry>)
    ensures MetaTags(entries) == [] <==> forall i :: 0 <= i < |entries| ==> !UsableMeta(entries[i])
  {
    if entries != [] {
      MetaTagsEmpty(entries[1..]);
      assert forall i :: 1 <= i < |entries| ==> entries[i] == entries[1..][i - 1];
    }
  }

  lemma {:induction false} LinkTagsEmpty(entries: seq<LinkEntry>)
    ensures LinkTags(entries) == [] <==> forall i :: 0 <= i < |entries| ==> !UsableLink(entries[i])
  {
    if entries != [] {
      LinkTagsEmpty(entries[1..]);
      assert forall i :: 1 <= i < |entries| ==> entries[i] == entries[1..][i - 1];
    }
  }

  lemma {:induction false} MetaTagsMarked(entries: seq<MetaEntry>)
    ensures Unmarked(MetaTags(entries)) == []
    ensures forall e :: e in MetaTags(entries) ==> e.tag == Meta
  {
    if entries != [] {
      var first := if UsableMeta(entries[0]) then [MetaTag(entries[0].name.value, entries[0].content.value)] else [];
      MetaTagsMarked(entries[1..]);
      UnmarkedAppend(first, MetaTags(entries[1..]));
    }
  }

  lemma {:induction false} LinkTagsMarked(entries: seq<LinkEntry>)
    ensures Unmarked(LinkTags(entries)) == []
    ensures forall e :: e in LinkTags(entries) ==> e.tag == Link
  {
    if entries != [] {
      var first := if UsableLink(entries[0]) then [LinkTag(entries[0].rel.value, entries[0].href.value)] else [];
      LinkTagsMarked(entries[1..]);
      UnmarkedAppend(first, LinkTags(entries[1..]));
    }
  }

  /** Everything the component inserts matches the marker selector. */
  lemma InsertedAllMarked(p: Props)
    ensures Unmarked(InsertedTags(p)) == []
    ensures MarkedOf(InsertedTags(p)) == InsertedTags(p)
  {
    MetaTagsMarked(MetaList(p));
    LinkTagsMarked(LinkList(p));
    UnmarkedAppend(MetaTags(MetaList(p)), LinkTags(LinkList(p)));
    UnmarkedHasNoMarked(InsertedTags(p));
    MarkedOfAllMarked(InsertedTags(p));
  }

  lemma {:induction false} MarkedOfAllMarked(s: seq<Element>)
    requires Unmarked(s) == []
    ensures MarkedOf(s) == s
  {
    if s != [] {
      assert IsMarked(s[0]);
      MarkedOfAllMarked(s[1..]);
    }
  }

  /** After removal no marked element remains; every unmarked element
      survives as many times as it occurred, in the same order; the title
      is untouched. */
  lemma RemovedSpec(s: DocumentState)
    ensures MarkedOf(Removed(s).head) == []
    ensures forall e :: e in Removed(s).head <==> e in s.head && !IsMarked(e)
    ensures forall e :: multiset(Removed(s).head)[e] == if IsMarked(e) then 0 else multiset(s.head)[e]
    ensures Subsequence(Removed(s).head, s.head)
    ensures Removed(s).title == s.title
  {
    UnmarkedHasNoMarked(s.head);
    UnmarkedMembership(s.head);
    UnmarkedCounts(s.head);
    UnmarkedIsSubsequence(s.head);
  }

  /** Removing is idempotent: a second retraction changes nothing. */
  lemma RemoveIdempotent(s: DocumentState)
    ensures Removed(Removed(s)) == Removed(s)
  {
    UnmarkedIdempotent(s.head);
  }

  /** After an apply cycle the marked elements are exactly the inserted tags,
      the unmarked content is unchanged, and the title follows the prop. */
  lemma UpdatedSpec(s: DocumentState, p: Props)
    ensures MarkedOf(Updated(s, p).head) == InsertedTags(p)
    ensures Unmarked(Updated(s, p).head) == Unmarked(s.head)
    ensures Updated(s, p).title == if Truthy(p.title) then p.title.value else s.title
  {
    MarkedAppend(Unmarked(s.head), InsertedTags(p));
    UnmarkedAppend(Unmarked(s.head), InsertedTags(p));
    UnmarkedHasNoMarked(s.head);
    UnmarkedIdempotent(s.head);
    InsertedAllMarked(p);
  }

  /** Omitted `meta` and `link` props add no element. */
  lemma OmittedListsInsertNothing(s: DocumentState, p: Props)
    requires p.meta.None? && p.link.None?
    ensures MarkedOf(Updated(s, p).head) == []
    ensures Updated(s, p).head == Unmarked(s.head)
  {
    UpdatedSpec(s, p);
  }

  /** No accumulation: applying `b` after `a` leaves the same head as applying
      `b` to a head whose marked elements have been removed. */
  lemma NoAccumulation(s: DocumentState, a: Props, b: Props)
    ensures Updated(Updated(s, a), b).head == Updated(Removed(s), b).head
    ensures MarkedOf(Updated(Updated(s, a), b).head) == InsertedTags(b)
  {
    UpdatedSpec(s, a);
    UpdatedSpec(Updated(s, a), b);
    UnmarkedIdempotent(s.head);
  }

  /** Applying the same props twice gives the same document as applying them once. */
  lemma UpdateIdempotent(s: DocumentState, p: Props)
    ensures Updated(Updated(s, p), p) == Updated(s, p)
  {
    UpdatedSpec(s, p);
  }

  /** Unmounting after any apply cycle leaves no marked element and restores
      the unmarked head as it was before; nothing leaks. */
  lemma UnmountAfterUpdate(s: DocumentState, p: Props)
    ensures Removed(Updated(s, p)).head == Unmarked(s.head)
    ensures MarkedOf(Removed(Updated(s, p)).head) == []
  {
    UpdatedSpec(s, p);
    UnmarkedHasNoMarked(s.head);
  }
}
