# DynamicHead: a verified model of the document-head synchroniser

The application's pages each declare a title, a list of `meta` entries
and a list of `link` entries through the `DynamicHead` component. The
component writes these to the global document. Every `<meta>` and `<link>`
it creates carries the ownership attribute `data-dynamic-head="true"`.
Every apply cycle (`updateHead`) first deletes all elements that carry the
attribute with the value `true` (`removeHead`); an element whose attribute
has another value is not matched and stays. It then sets `document.title`
when a title is given, appends one marked `meta` per entry whose `name` and `content` are
both truthy, and then one marked `link` per entry whose `rel` and `href`
are both truthy. Mount and update run the apply cycle. Unmount runs only
the removal.

The model:

- `dom.dfy` (module `Dom`) describes the document. The children of
  `document.head` are a sequence of `Element` records, each a tag plus an
  attribute map. The marker selector is `IsMarked`: the attribute must be
  present with exactly the value `"true"`. `Unmarked` and `MarkedOf` are the
  two halves of a head under that selector. `Document` is the shared
  mutable document (`head`, `title`).
- `dynamic_head.dfy` (module `DynamicHeadComponent`) holds the props and the
  specification functions. `InsertedTags` is what one cycle appends.
  `Updated` and `Removed` are the document after a cycle and after a
  removal. The `DynamicHead` class holds the lifecycle hooks, and
  `UpdateHead` and `RemoveHead` do the work with loops, as the source
  does. Props are optional strings: JavaScript truthiness of a string is
  "present and non-empty", and an absent `meta` or `link` prop is the empty
  list (the destructuring default).
- `pages.dfy` (module `Pages`) holds the props that Home, About, Contact and
  NotFound pass to the component. It also holds page-level scenarios:
  mounting a page, leaving NotFound for Home, re-rendering a page, and an
  update after the props change.

## Model

| member | source | states |
|---|---|---|
| `DynamicHeadComponent.DynamicHead.RemoveHead` | src/components/DynamicHead.js:46-49 | the head becomes exactly the old head without the elements matching `[data-dynamic-head="true"]`, in their old order; the title is unchanged |
| `DynamicHeadComponent.DynamicHead.UpdateHead` | src/components/DynamicHead.js:16-44 | the head becomes the old unmarked elements followed by `InsertedTags(props)`; the title becomes the prop when it is truthy and otherwise keeps its old value |
| `DynamicHeadComponent.DynamicHead.ComponentDidMount` | src/components/DynamicHead.js:4-6 | mounting ends in the apply-cycle state `Updated(old state, props)` |
| `DynamicHeadComponent.DynamicHead.ComponentDidUpdate` | src/components/DynamicHead.js:8-10 | an update with the current props ends in the apply-cycle state |
| `DynamicHeadComponent.DynamicHead.ComponentWillUnmount` | src/components/DynamicHead.js:12-14 | unmounting only removes: the state becomes `Removed(old state)`, and nothing is inserted |
| `Dom.UnmarkedMembership` | src/components/DynamicHead.js:47-48 | an element survives removal if and only if it was in the head and does not match the marker selector |
| `Dom.UnmarkedCounts` | src/components/DynamicHead.js:47-48 | removal keeps every unmarked element exactly as many times as it occurred and keeps no marked element |
| `Dom.UnmarkedIsSubsequence` | src/components/DynamicHead.js:47-48 | the surviving elements keep their relative order |
| `Dom.UnmarkedHasNoMarked` | src/components/DynamicHead.js:47-48 | no marked element survives removal; removal changes a head if and only if the head has a marked element |
| `Dom.UnmarkedIdempotent` | src/components/DynamicHead.js:46-49 | a second removal changes nothing |
| `Dom.UnmarkedAppend` | src/components/DynamicHead.js:47-48 | removal over two concatenated heads is the removal over each, concatenated |
| `Dom.MarkedAppend` | src/components/DynamicHead.js:47 | the selector's matches over two concatenated heads are the matches of each, concatenated |
| `Dom.UnmarkedSnoc` | src/components/DynamicHead.js:48 | visiting one more node removes it exactly when it matches the selector |
| `DynamicHeadComponent.MetaTagsAppend` | src/components/DynamicHead.js:25-33 | the meta tags of two concatenated entry lists are the tags of each list, in order |
| `DynamicHeadComponent.LinkTagsAppend` | src/components/DynamicHead.js:35-43 | the same for link entries |
| `DynamicHeadComponent.MetaTagsSnoc` | src/components/DynamicHead.js:25-33 | one more meta entry appends one tag with its name and content when both are truthy, and nothing otherwise |
| `DynamicHeadComponent.LinkTagsSnoc` | src/components/DynamicHead.js:35-43 | one more link entry appends one tag with its rel and href when both are truthy, and nothing otherwise |
| `DynamicHeadComponent.MetaTagsOnePerEntry` | src/components/DynamicHead.js:25-33 | when every entry has a truthy name and content, there is exactly one meta tag per entry, in input order, with the entry's name and content and the marker |
| `DynamicHeadComponent.LinkTagsOnePerEntry` | src/components/DynamicHead.js:35-43 | when every entry has a truthy rel and href, there is exactly one link tag per entry, in input order, with the entry's rel and href and the marker |
| `DynamicHeadComponent.MetaTagsEmpty` | src/components/DynamicHead.js:26 | a meta list yields no tag if and only if none of its entries has both a truthy name and a truthy content |
| `DynamicHeadComponent.LinkTagsEmpty` | src/components/DynamicHead.js:36 | a link list yields no tag if and only if none of its entries has both a truthy rel and a truthy href |
| `DynamicHeadComponent.MetaTagsMarked` | src/components/DynamicHead.js:27-30 | every created meta element is a `meta` and carries the marker |
| `DynamicHeadComponent.LinkTagsMarked` | src/components/DynamicHead.js:37-40 | every created link element is a `link` and carries the marker |
| `DynamicHeadComponent.InsertedAllMarked` | src/components/DynamicHead.js:25-43 | everything one cycle appends matches the marker selector |
| `DynamicHeadComponent.MarkedOfAllMarked` | src/components/DynamicHead.js:47 | a head whose elements all carry the marker is matched by the selector in full |
| `DynamicHeadComponent.RemovedSpec` | src/components/DynamicHead.js:46-49 | after removal no marked element remains; an element survives if and only if it was unmarked, each unmarked element survives as many times as it occurred, in the same order; the title is untouched |
| `DynamicHeadComponent.RemoveIdempotent` | src/components/DynamicHead.js:46-49 | retracting twice is the same as retracting once |
| `DynamicHeadComponent.UpdatedSpec` | src/components/DynamicHead.js:16-44 | after a cycle the marked elements are exactly the inserted tags (meta tags, then link tags), the unmarked elements are unchanged, and the title changes only for a truthy title prop |
| `DynamicHeadComponent.OmittedListsInsertNothing` | src/components/DynamicHead.js:19 | omitted `meta` and `link` props insert nothing: no marked element remains |
| `DynamicHeadComponent.NoAccumulation` | src/components/DynamicHead.js:16-17 | applying `b` after `a` leaves the same head as applying `b` to a head cleared of marked elements; only `b`'s tags are marked |
| `DynamicHeadComponent.UpdateIdempotent` | src/components/DynamicHead.js:16-44 | applying the same props twice gives the same head and title as applying them once |
| `DynamicHeadComponent.UnmountAfterUpdate` | src/components/DynamicHead.js:12-14 | unmounting after any cycle leaves no marked element and restores the unmarked head as it was before the cycle |
| `Pages.MountPage` | src/components/About.js:6-12 | mounting any of the four pages sets its title and leaves exactly its two meta tags marked, in order; the cited lines are About's props, and the lemma equally covers Home's (src/components/Home.js lines 7-13), Contact's (src/components/Contact.js lines 6-12) and NotFound's (src/components/NotFound.js lines 10-16) |
| `Pages.MountHome` | src/components/Home.js:7-13 | mounting Home sets the title "Home Page" and marks exactly the description and keywords tags |
| `Pages.NotFoundThenHome` | src/components/NotFound.js:10-19 | leaving NotFound for Home gives the title "Home Page" and only Home's tags; the content authored elsewhere is as before |
| `Pages.Navigate` | src/components/DynamicHead.js:4-14 | replacing a view unmounts the old head component and mounts the new one; the document ends as `Updated(Removed(old), next props)` |
| `Pages.GoHomeFromNotFound` | src/components/NotFound.js:6-19 | the not-found page's button leads to the title "Home Page", Home's two tags marked, and the unmarked head unchanged |
| `Pages.RerenderPage` | src/components/DynamicHead.js:8-10 | a re-render with unchanged props leaves the document as the mount alone did; there are no duplicate tags |
| `Pages.UpdateWithNewProps` | src/components/DynamicHead.js:8-17 | after a mount with props `a`, installing props `b` and running the update hook leaves the same head as applying `b` to a head cleared of marked elements; only `b`'s tags are marked and the unmarked head is unchanged |

## Left out

- `src/components/TimeAgo.js` is not part of this model. Its text comes from the `date-fns` library, whose source is not available. Its refresh depends on wall-clock time and an interval timer.
- `src/index.js` is not part of this model. Routing, lazy loading and the loading placeholder are implemented by `wrouter` and `preact/compat`. `Pages.Navigate` only assumes the hook order of a view change: the old view unmounts, then the new one mounts.
- NotFound's `goHome` calls the router's `route('/')`, which is left out. `Pages.GoHomeFromNotFound` models only the effect on the document head of the view change it causes.
- The page markup (headings, paragraphs, navigation bar) is static output and is not modelled. Only the pages' head props are used.
- DOM node identity is not modelled. A node is its position in the head, and the `querySelectorAll` snapshot is modelled as a copy of the head that the removal loop walks in document order.
- `document.title` is a separate string. The whitespace normalisation of the title getter is not modelled.
- Assigning `document.title` in a browser rewrites the head's `<title>` element, or appends a new unmarked `<title>` to the head when there is none. The model's head holds no `<title>` element. So "the unmarked elements are unchanged" (`UpdateHead`, `UpdatedSpec`, `NoAccumulation`, `UnmountAfterUpdate`, `GoHomeFromNotFound`, `UpdateWithNewProps`) holds for the model's head. In a browser it can fail in one way: a truthy title prop can change or add the `<title>` node.
- Prop values are optional strings; non-string values and their truthiness, and URL resolution of the `href` property, are not modelled. A `null` `title` is falsy and acts like an omitted one (`None`).
- A `null` `meta` or `link` prop is not modelled. The destructuring defaults replace only `undefined`, so `forEach` on `null` throws.
- A `null` or `undefined` entry inside a list is not modelled. Destructuring such an entry throws, and at that point the removal, the title write and any earlier appends have already happened. The model has no such partial state.
- `querySelectorAll` on `document.head` matches marked descendants at any depth. The model's head is the flat list of its children, so marked elements nested inside another head element are not modelled.
- Several `DynamicHead` instances mounted at once are not modelled separately. The marker is global, so every instance removes every marked element; the model has one shared `Document`.
