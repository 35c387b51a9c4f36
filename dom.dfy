/** The part of the browser document that the head synchroniser touches:
    the children of `document.head` as a sequence of element records, and
    `document.title` as a single string. */
module Dom {

  datatype Option<T> = None | Some(value: T)

  /** The kind of a head element. Elements authored outside the synchroniser
      can be of any tag; the synchroniser itself only creates `meta` and `link`. */
  datatype Tag = Meta | Link | OtherTag(name: string)

  /** A head element: its tag and its attributes (name to value). Node
      identity is given by position in the head. */
  datatype Element = Element(tag: Tag, attributes: map<string, string>)

  /** The ownership marker set on every element the synchroniser inserts. */
  const MarkerAttribute: string := "data-dynamic-head"
  const MarkerValue: string := "true"

  /** The attribute selector `[data-dynamic-head="true"]`: the attribute must be
      present with exactly this value. */
  predicate IsMarked(e: Element) {
    MarkerAttribute in e.attributes && e.attributes[MarkerAttribute] == MarkerValue
  }

  /** The elements of `s` that do not match the marker selector, in document order. */
  function Unmarked(s: seq<Element>): seq<Element> {
    if s == [] then [] else (if IsMarked(s[0]) then [] else [s[0]]) + Unmarked(s[1..])
  }

  /** The elements of `s` that match the marker selector, in document order. */
  function MarkedOf(s: seq<Element>): seq<Element> {
    if s == [] then [] else (if IsMarked(s[0]) then [s[0]] else []) + MarkedOf(s[1..])
  }

  /** `a` is obtained from `b` by deleting some elements (order is kept). */
  predicate Subsequence(a: seq<Element>, b: seq<Element>)
    decreases |b|
  {
    if a == [] then true
    else if b == [] then false
    else (a[0] == b[0] && Subsequence(a[1..], b[1..])) || Subsequence(a, b[1..])
  }

  /** The document's state as a value: head children and title. */
  datatype DocumentState = DocumentState(head: seq<Element>, title: string)

  /** The global document, shared by every mounted component. */
  class Document {
    var head: seq<Element>
    var title: string

    constructor (head: seq<Element>, title: string)
      ensures this.head == head && this.title == title
    {
      this.head := head;
      this.title := title;
    }

    ghost function State(): DocumentState
      reads this
    {
      DocumentState(head, title)
    }
  }

  lemma {:induction false} UnmarkedAppend(a: seq<Element>, b: seq<Element>)
    ensures Unmarked(a + b) == Unmarked(a) + Unmarked(b)
  {
    if a == [] {
      assert a + b == b;
    } else {
      assert (a + b)[1..] == a[1..] + b;
      UnmarkedAppend(a[1..], b);
    }
  }

  lemma {:induction false} MarkedAppend(a: seq<Element>, b: seq<Element>)
    ensures MarkedOf(a + b) == MarkedOf(a) + MarkedOf(b)
  {
    if a == [] {
      assert a + b == b;
    } else {
      assert (a + b)[1..] == a[1..] + b;
      MarkedAppend(a[1..], b);
    }
  }

  /** Extending a prefix by one element extends the unmarked part by that
      element exactly when it is unmarked. */
  lemma UnmarkedSnoc(s: seq<Element>, e: Element)
    ensures Unmarked(s + [e]) == Unmarked(s) + (if IsMarked(e) then [] else [e])
  {
    UnmarkedAppend(s, [e]);
    assert [e][1..] == [];
  }

  /** No element of `Unmarked(s)` matches the selector, and every element
      of `s` that does not match it is still there. */
  lemma {:induction false} UnmarkedMembership(s: seq<Element>)
    ensures forall e :: e in Unmarked(s) <==> e in s && !IsMarked(e)
  {
    if s != [] {
      UnmarkedMembership(s[1..]);
      assert forall e :: e in s <==> e == s[0] || e in s[1..];
    }
  }

  /** Removal keeps each unmarked element as many times as it occurred and
      drops every marked one. */
  lemma {:induction false} UnmarkedCounts(s: seq<Element>)
    ensures forall e :: multiset(Unmarked(s))[e] == if IsMarked(e) then 0 else multiset(s)[e]
  {
    if s != [] {
      UnmarkedCounts(s[1..]);
      assert s == [s[0]] + s[1..];
      assert multiset(s) == multiset{s[0]} + multiset(s[1..]);
    }
  }

  /** Removal keeps the relative order of the remaining elements. */
  lemma {:induction false} UnmarkedIsSubsequence(s: seq<Element>)
    ensures Subsequence(Unmarked(s), s)
  {
    if s != [] {
      UnmarkedIsSubsequence(s[1..]);
      if !IsMarked(s[0]) {
        assert Unmarked(s)[0] == s[0] && Unmarked(s)[1..] == Unmarked(s[1..]);
      } else {
        assert Unmarked(s) == Unmarked(s[1..]);
      }
    }
  }

  /** After filtering, nothing marked remains; and filtering is exact: the
      only sequences it leaves unchanged are those without marked elements. */
  lemma {:induction false} UnmarkedHasNoMarked(s: seq<Element>)
    ensures MarkedOf(Unmarked(s)) == []
    ensures Unmarked(s) == s <==> MarkedOf(s) == []
  {
    if s != [] {
      UnmarkedHasNoMarked(s[1..]);
      MarkedAppend(if IsMarked(s[0]) then [] else [s[0]], Unmarked(s[1..]));
      if Unmarked(s) == s {
        UnmarkedShorter(s[1..]);
        assert IsMarked(s[0]) ==> |Unmarked(s)| < |s|;
      }
    }
  }

  lemma {:induction false} UnmarkedShorter(s: seq<Element>)
    ensures |Unmarked(s)| <= |s|
  {
    if s != [] {
      UnmarkedShorter(s[1..]);
    }
  }

  /** Removing marked elements twice is the same as removing them once. */
  lemma UnmarkedIdempotent(s: seq<Element>)
    ensures Unmarked(Unmarked(s)) == Unmarked(s)
  {
    UnmarkedHasNoMarked(s);
    UnmarkedHasNoMarked(Unmarked(s));
  }
}
