/** Project modal (js/main.js, section 7): the embedded project records, the
    view `openModal` builds from one of them, and the open/closed lifecycle
    with the body scroll lock. */
module ProjectModal {
  import opened Common

  /** A project record; `github` and `demo` may be missing. */
  datatype Project = Project(
    title: string,
    image: string,
    description: string,
    challenge: string,
    solution: string,
    features: seq<string>,
    tech: seq<string>,
    github: Option<string>,
    demo: Option<string>)

  /** The mark in front of every feature, as the template's text holds it:
      the three characters a check mark's UTF-8 bytes read as Windows-1252. */
  const CheckMark := "\U{00E2}\U{0153}\U{201C}"

  /** A list item of "Key Features". */
  datatype FeatureItem = FeatureItem(mark: string, text: string)

  /** A tag of "Technologies Used". */
  datatype TechTag = TechTag(text: string)

  /** An action link: "View Code" or "View Live". */
  datatype ActionLink = CodeLink(href: string) | LiveLink(href: string)

  /** The rendered structure of the modal body. */
  datatype View = View(
    imageSrc: string,
    imageAlt: string,
    title: string,
    description: string,
    challenge: string,
    solution: string,
    features: seq<FeatureItem>,
    tags: seq<TechTag>,
    links: seq<ActionLink>)

  /** The embedded dataset, in the order the cards' `data-project` indices use. */
  const ProjectDetails: seq<Project> := [
    Project(
      "TaskFlow Dashboard",
      "images/project-1.jpg",
      "A comprehensive project management platform designed for modern teams. TaskFlow combines intuitive kanban boards with powerful analytics and real-time collaboration features.",
      "Creating a system that could handle real-time updates for multiple users while maintaining performance and data consistency.",
      "Implemented WebSocket connections with Socket.io for real-time updates, optimistic UI updates for better perceived performance, and PostgreSQL with proper indexing for efficient queries.",
      ["Real-time collaborative kanban boards",
       "Advanced team analytics and reporting",
       "Custom workflow automation",
       "Time tracking and sprint planning",
       "Integration with popular tools (Slack, GitHub, Jira)"],
      ["React", "Node.js", "PostgreSQL", "Socket.io", "Redis", "Docker"],
      Some("https://github.com/yourusername/taskflow"),
      Some("https://taskflow-demo.netlify.app")),
    Project(
      "FitTrack Mobile",
      "images/project-2.jpg",
      "Cross-platform fitness tracking application that helps users plan workouts, track progress, and connect with a community of fitness enthusiasts.",
      "Designing an app that works seamlessly on both iOS and Android while providing smooth animations and offline functionality.",
      "Used React Native for cross-platform development, implemented local-first architecture with Firebase sync, and created custom animations using React Native Reanimated.",
      ["Customizable workout plans",
       "Progress tracking with charts",
       "Social features and challenges",
       "Offline mode with data sync",
       "Integration with health apps"],
      ["React Native", "Firebase", "TypeScript", "Redux", "React Native Reanimated"],
      Some("https://github.com/yourusername/fittrack"),
      Some("https://apps.apple.com/fittrack")),
    Project(
      "Artisan Marketplace",
      "images/project-3.jpg",
      "E-commerce platform connecting independent artists and makers with customers who value handcrafted, unique products.",
      "Building a scalable platform that handles complex product variations, inventory management, and secure payments while maintaining excellent performance.",
      "Leveraged Next.js for server-side rendering and SEO, Stripe for payment processing, and MongoDB for flexible product schema. Implemented image optimization and lazy loading.",
      ["Multi-vendor marketplace",
       "Advanced product filtering",
       "Secure payment processing",
       "Seller analytics dashboard",
       "Review and rating system"],
      ["Next.js", "Stripe", "MongoDB", "Tailwind CSS", "Vercel"],
      Some("https://github.com/yourusername/marketplace"),
      Some("https://artisan-marketplace.vercel.app")),
    Project(
      "Aurora UI Kit",
      "images/project-4.jpg",
      "Accessible, customizable component library designed to help teams build beautiful applications faster.",
      "Creating components that are flexible enough for various use cases while maintaining consistency and accessibility standards.",
      "Built with React and styled-components for maximum customization. Used Storybook for documentation and visual testing. Implemented comprehensive WCAG 2.1 AA compliance.",
      ["50+ accessible components",
       "Dark mode support",
       "Customizable theme system",
       "Comprehensive documentation",
       "TypeScript support"],
      ["React", "Storybook", "styled-components", "TypeScript", "Jest"],
      Some("https://github.com/yourusername/aurora-ui"),
      Some("https://aurora-ui.netlify.app")),
    Project(
      "WeatherWise",
      "images/project-5.jpg",
      "Beautiful weather dashboard featuring interactive maps, detailed forecasts, and location-based alerts.",
      "Visualizing complex weather data in an intuitive way while ensuring the app works offline as a PWA.",
      "Used Vue.js for reactive UI updates, D3.js for custom data visualizations, and service workers for offline functionality. Implemented smart caching strategies.",
      ["7-day detailed forecasts",
       "Interactive weather maps",
       "Severe weather alerts",
       "Multiple location tracking",
       "Works offline (PWA)"],
      ["Vue.js", "D3.js", "OpenWeather API", "Workbox", "Netlify"],
      Some("https://github.com/yourusername/weatherwise"),
      Some("https://weatherwise-app.netlify.app")),
    Project(
      "GreenLeaf Branding",
      "images/project-6.jpg",
      "Complete brand identity system for a sustainable living startup, from logo design to comprehensive brand guidelines.",
      "Creating a visual identity that communicates sustainability and modernity while being versatile across all touchpoints.",
      "Developed a flexible logo system with multiple variations, created a cohesive color palette inspired by nature, and built comprehensive brand guidelines.",
      ["Logo and icon system",
       "Brand color palette",
       "Typography system",
       "Brand guidelines document",
       "Marketing collateral templates"],
      ["Figma", "Adobe Illustrator", "Brand Strategy", "Design Systems"],
      None,
      Some("https://behance.net/gallery/greenleaf"))
  ]

  /** `features.map(...)`: one checked list item per feature, in order. */
  function FeatureItems(features: seq<string>): (items: seq<FeatureItem>)
    ensures |items| == |features|
    ensures forall i :: 0 <= i < |features| ==> items[i] == FeatureItem(CheckMark, features[i])
  {
    if features == [] then []
    else [FeatureItem(CheckMark, features[0])] + FeatureItems(features[1..])
  }

  /** `tech.map(...)`: one tag per technology, in order. */
  function TechTags(tech: seq<string>): (tags: seq<TechTag>)
    ensures |tags| == |tech|
    ensures forall i :: 0 <= i < |tech| ==> tags[i] == TechTag(tech[i])
  {
    if tech == [] then []
    else [TechTag(tech[0])] + TechTags(tech[1..])
  }

  /** The action links: "View Code" for a truthy `github`, then "View Live"
      for a truthy `demo`; a falsy field leaves its link out altogether. */
  function ActionLinks(github: Option<string>, demo: Option<string>): (links: seq<ActionLink>)
    ensures |links| <= 2
    ensures (exists l :: l in links && l.CodeLink?) <==> Truthy(github)
    ensures (exists l :: l in links && l.LiveLink?) <==> Truthy(demo)
    ensures forall l :: l in links && l.CodeLink? ==> Some(l.href) == github
    ensures forall l :: l in links && l.LiveLink? ==> Some(l.href) == demo
    ensures |links| == 2 ==> links[0].CodeLink? && links[1].LiveLink?
  {
    var links := (if Truthy(github) then [CodeLink(github.value)] else [])
      + (if Truthy(demo) then [LiveLink(demo.value)] else []);
    assert Truthy(github) ==> links[0] == CodeLink(github.value);
    assert Truthy(demo) ==> links[|links| - 1] == LiveLink(demo.value);
    links
  }

  /** The modal body built from one record: every field of the record, every
      feature and every technology, as many and in the same order, and a
      link exactly for each truthy `github`/`demo` field. */
  function Render(p: Project): (v: View)
    ensures v.imageSrc == p.image && v.imageAlt == p.title && v.title == p.title
    ensures v.description == p.description
    ensures v.challenge == p.challenge && v.solution == p.solution
    ensures |v.features| == |p.features|
    ensures forall i :: 0 <= i < |p.features| ==> v.features[i].text == p.features[i]
    ensures |v.tags| == |p.tech|
    ensures forall i :: 0 <= i < |p.tech| ==> v.tags[i].text == p.tech[i]
    ensures (exists l :: l in v.links && l.CodeLink?) <==> Truthy(p.github)
    ensures (exists l :: l in v.links && l.LiveLink?) <==> Truthy(p.demo)
  {
    View(p.image, p.title, p.title, p.description, p.challenge, p.solution,
         FeatureItems(p.features), TechTags(p.tech), ActionLinks(p.github, p.demo))
  }

  /** The dataset has six records; the last one has no code repository, so
      its modal offers only the live link. */
  lemma DatasetShape()
    ensures |ProjectDetails| == 6
    ensures forall i :: 0 <= i < 5 ==> Truthy(ProjectDetails[i].github) && Truthy(ProjectDetails[i].demo)
    ensures ProjectDetails[5].github == None
    ensures Render(ProjectDetails[5]).links == [LiveLink("https://behance.net/gallery/greenleaf")]
  {
  }

  /** The modal's `active` class, the body's `style.overflow`, and the body
      content (None before the first open). */
  datatype ModalState = ModalState(active: bool, overflow: string, content: Option<View>)

  /** The scroll lock is on exactly while the modal is shown. */
  predicate Locked(s: ModalState)
  {
    s.overflow == (if s.active then "hidden" else "")
  }

  function Opened(s: ModalState, i: nat): (r: ModalState)
    requires i < |ProjectDetails|
    ensures r.active && r.overflow == "hidden" && Locked(r)
    ensures r.content == Some(Render(ProjectDetails[i]))
  {
    ModalState(true, "hidden", Some(Render(ProjectDetails[i])))
  }

  /** `closeModal`: content is kept and replaced on the next open. */
  function Closed(s: ModalState): (r: ModalState)
    ensures !r.active && r.overflow == "" && Locked(r)
    ensures r.content == s.content
  {
    s.(active := false, overflow := "")
  }

  /** The keydown listener: Escape closes an open modal; any other key, or
      Escape with the modal closed, changes nothing. */
  function AfterKeyDown(s: ModalState, key: string): (r: ModalState)
    ensures key == "Escape" && s.active ==> r == Closed(s)
    ensures !(key == "Escape" && s.active) ==> r == s
  {
    if key == "Escape" && s.active then Closed(s) else s
  }

  /** Closing twice is closing once; closing a closed, unlocked modal is a
      no-op. */
  lemma CloseIdempotent(s: ModalState)
    ensures Closed(Closed(s)) == Closed(s)
    ensures Locked(s) && !s.active ==> Closed(s) == s
  {
  }

  /** Opening then closing (by button, overlay or Escape) leaves the modal
      closed with the scroll lock released. */
  lemma OpenThenClose(s: ModalState, i: nat)
    requires i < |ProjectDetails|
    ensures Closed(Opened(s, i)) == ModalState(false, "", Some(Render(ProjectDetails[i])))
    ensures AfterKeyDown(Opened(s, i), "Escape") == Closed(Opened(s, i))
  {
  }

  /** The modal element and the page body's overflow style. */
  class Modal {
    var active: bool
    var overflow: string
    var content: Option<View>

    function State(): ModalState
      reads this
    {
      ModalState(active, overflow, content)
    }

    constructor ()
      ensures State() == ModalState(false, "", None)
    {
      active := false;
      overflow := "";
      content := None;
    }

    /** `openModal(index)`; the source reads `projectDetails[index]` without a
        bounds check, so callers must pass an existing index. */
    method Open(index: nat)
      requires index < |ProjectDetails|
      modifies this
      ensures State() == Opened(old(State()), index)
    {
      var project := ProjectDetails[index];
      content := Some(Render(project));
      active := true;
      overflow := "hidden";
    }

    /** `closeModal`, wired to the close button and the overlay. */
    method Close()
      modifies this
      ensures State() == Closed(old(State()))
    {
      active := false;
      overflow := "";
    }

    method KeyDown(key: string)
      modifies this
      ensures State() == AfterKeyDown(old(State()), key)
    {
      if key == "Escape" && active {
        Close();
      }
    }
  }
}
