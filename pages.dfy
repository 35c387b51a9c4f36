/** The head descriptions the four page views give their `DynamicHead`, and
    what the document looks like as the views are mounted and replaced. */
module Pages {
  import opened Dom
  import opened DynamicHeadComponent

  datatype Page = Home | About | Contact | NotFound

  function Entry(name: string, content: string): MetaEntry {
    MetaEntry(Some(name), Some(content))
  }

  /** The props each page passes; none of them passes `link`. */
  function PageHead(page: Page): Props {
    match page
    case Home => Props(Some("Home Page"), Some([
        Entry("description", "Welcome to our home page"),
        Entry("keywords", "home, preact, example")]), None)
    case About => Props(Some("About Us"), Some([
        Entry("description", "Learn more about our company"),
        Entry("keywords", "about, company, preact")]), None)
    case Contact => Props(Some("Contact Us"), Some([
        Entry("description", "Get in touch with us"),
        Entry("keywords", "contact, email, phone, preact")]), None)
    case NotFound => Props(Some("404 - Page Not Found"), Some([
        Entry("description", "The requested page was not found"),
        Entry("robots", "noindex")]), None)
  }

  /** Mounting any page sets its title and leaves exactly its two meta tags
      marked, in the order the page lists them, and no link tag. */
  lemma MountPage(s: DocumentState, page: Page)
    ensures Updated(s, PageHead(page)).title == PageHead(page).title.value
    ensures var entries := PageHead(page).meta.value;
      MarkedOf(Updated(s, PageHead(page)).head)
        == [MetaTag(entries[0].name.value, entries[0].content.value),
            MetaTag(entries[1].name.value, entries[1].content.value)]
    ensures Unmarked(Updated(s, PageHead(page)).head) == Unmarked(s.head)
  {
    var p := PageHead(page);
    UpdatedSpec(s, p);
    MetaTagsOnePerEntry(p.meta.value);
    assert InsertedTags(p) == MetaTags(p.meta.value) + [];
  }

  /** The home page's head: title "Home Page" and its two meta tags. */
  lemma MountHome(s: DocumentState)
    ensures Updated(s, PageHead(Home)).title == "Home Page"
    ensures MarkedOf(Updated(s, PageHead(Home)).head)
         == [MetaTag("description", "Welcome to our home page"),
             MetaTag("keywords", "home, preact, example")]
  {
    MountPage(s, Home);
  }

  /** Leaving the not-found page for the home page (unmount, then mount)
      restores "Home Page" as the title and leaves only the home page's
      tags marked; nothing of the not-found page survives. */
  lemma NotFoundThenHome(s: DocumentState)
    ensures var after := Updated(Removed(Updated(s, PageHead(NotFound))), PageHead(Home));
      && after.title == "Home Page"
      && MarkedOf(after.head) == MarkedOf(Updated(s, PageHead(Home)).head)
      && Unmarked(after.head) == Unmarked(s.head)
  {
    var mid := Removed(Updated(s, PageHead(NotFound)));
    UnmountAfterUpdate(s, PageHead(NotFound));
    UnmarkedIdempotent(s.head);
    MountHome(mid);
    MountHome(s);
    UpdatedSpec(mid, PageHead(Home));
  }

  /** The router replaces the mounted view: the old view's head component
      unmounts before the new one mounts. */
  method Navigate(current: DynamicHead, next: Page) returns (mounted: DynamicHead)
    modifies current.document
    ensures mounted.document == current.document && mounted.props == PageHead(next)
    ensures current.document.State() == Updated(Removed(old(current.document.State())), PageHead(next))
  {
    current.ComponentWillUnmount();
    mounted := new DynamicHead(current.document, PageHead(next));
    mounted.ComponentDidMount();
  }

  /** The not-found page's button leads back home: afterwards the title is
      "Home Page", only the home page's tags are marked, and the head content
      authored elsewhere is as it was. */
  method GoHomeFromNotFound(document: Document)
    modifies document
    ensures document.title == "Home Page"
    ensures MarkedOf(document.head)
         == [MetaTag("description", "Welcome to our home page"),
             MetaTag("keywords", "home, preact, example")]
    ensures Unmarked(document.head) == Unmarked(old(document.head))
  {
    var notFound := new DynamicHead(document, PageHead(NotFound));
    notFound.ComponentDidMount();
    var home := Navigate(notFound, Home);
    NotFoundThenHome(old(document.State()));
    MountHome(old(document.State()));
  }

  /** A re-render of a mounted page runs the update hook with unchanged props;
      the head and title end as after the mount alone, with no duplicates. */
  method RerenderPage(document: Document, page: Page)
    modifies document
    ensures document.State() == Updated(old(document.State()), PageHead(page))
  {
    var view := new DynamicHead(document, PageHead(page));
    view.ComponentDidMount();
    view.ComponentDidUpdate();
    UpdateIdempotent(old(document.State()), PageHead(page));
  }

  /** The host framework installs new props on a mounted view and runs the
      update hook: only the new props' tags are marked, exactly as if the
      old props had never been applied, and content authored elsewhere is
      as it was. */
  method UpdateWithNewProps(document: Document, first: Props, next: Props)
    modifies document
    ensures document.State() == Updated(Updated(old(document.State()), first), next)
    ensures document.head == Updated(Removed(old(document.State())), next).head
    ensures MarkedOf(document.head) == InsertedTags(next)
    ensures Unmarked(document.head) == Unmarked(old(document.head))
  {
    var view := new DynamicHead(document, first);
    view.ComponentDidMount();
    view.props := next;
    view.ComponentDidUpdate();
    NoAccumulation(old(document.State()), first, next);
    UpdatedSpec(Updated(old(document.State()), first), next);
    UpdatedSpec(old(document.State()), first);
  }
}
