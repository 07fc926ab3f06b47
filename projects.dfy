/** The project showcase: the hard-coded list of projects and the category
    filter behind its three tabs. */
module Projects {

  datatype Option<T> = None | Some(value: T)

  /** The tag each project carries; the tabs select by it. */
  datatype Category = Web | Ai | All

  datatype Project = Project(
    title: string,
    description: string,
    technologies: string,
    period: string,
    details: seq<string>,
    github: Option<string>,
    demo: Option<string>,
    category: Category)

  /** The projects, in the order the page lists them. */
  const Catalog: seq<Project> := [
    Project(
      "Low-Level Design (LLD) Educational Platform",
      "A comprehensive platform for learning and implementing Low-Level Design patterns with interactive examples",
      "React, TypeScript, Tailwind CSS, Vite",
      "March, 2025",
      [ "Developed a comprehensive platform for learning and implementing Low-Level Design (LLD) patterns, featuring interactive code examples and real-world use cases.",
        "Built the frontend using React with TypeScript and styled with Tailwind CSS and shadcn/ui components for a modern, responsive user interface.",
        "Implemented a Design Patterns Library showcasing patterns like Singleton, Factory Method, Observer, and Strategy, with detailed explanations and practical examples.",
        "Integrated Object-Oriented Programming (OOP) principles and SOLID design principles to enhance maintainability, scalability, and code clarity.",
        "Architected the application with reusable components, custom hooks for state management, and a modular page structure for scalability." ],
      Some("https://github.com/Kushalsathe123/LLD_Design_Website/tree/main"),
      Some("https://learnlld.netlify.app/"),
      Web),
    Project(
      "Recipe Platform (Microservice Architecture)",
      "A comprehensive recipe sharing platform built with microservices architecture",
      ".NET, Angular, JWT, REST API, EFCore, MySQL",
      "Dec, 2024",
      [ "Implemented JWT authentication for secure user login and access control in a recipe platform application.",
        "Developed the frontend using Angular, ensuring a responsive and user-friendly interface for recipe discovery, sharing, and interaction.",
        "Architected the backend with a microservice approach, enabling scalable and modular components for handling recipe data, user management, and notifications.",
        "Configured a CI pipeline to automate the build, testing, and deployment process, ensuring continuous integration and smooth updates." ],
      Some("https://github.com/Kushalsathe123/RecipePlatform"),
      None,
      Web),
    Project(
      "Natural Sounding TTS For Bangla Language",
      "A text-to-speech system for the Bangla language with natural-sounding output",
      "Python, PyTorch, Deep Learning, Coqui TTS, VITS",
      "May, 2023",
      [ "Developed a Text-to-Speech (TTS) model leveraging deep learning techniques, improving phonetic accuracy by 30% and enhancing naturalness in synthesized speech.",
        "Outperformed existing TTS models in linguistic benchmarks, increasing intelligibility scores by 25% based on end-user feedback.",
        "Utilized PyTorch and VITS architecture to create a robust neural network capable of generating natural-sounding Bangla speech.",
        "Published related research in a WOS ESCI and PubMed Indexed Engineering Publication, reviewing TTS systems for Devanagari script languages." ],
      None,
      None,
      Ai),
    Project(
      "Transliteration Model for English to Hindi Conversion",
      "A model that converts English text to Hindi script while preserving pronunciation",
      "Python, PyTorch, Deep Learning, NLP",
      "April, 2023",
      [ "Designed and implemented a Seq-to-Seq transliteration model using attention mechanisms, increasing script conversion accuracy by 40% from Latin to Devanagari.",
        "Facilitated cross-lingual communication by preserving phonetic consistency, reducing transliteration errors by 35% in English-to-Hindi text conversions.",
        "Applied NLP techniques and encoder-decoder architectures to handle complex transliteration challenges between different writing systems.",
        "Led a cross-functional team working on this project, enhancing skills in deep learning, NLP, and team leadership." ],
      Some("https://github.com/Kushalsathe123/Transliteration_deep_learning"),
      None,
      Ai)
  ]

  /** The projects tagged with the given category, in their original order. */
  function KeepCategory(projects: seq<Project>, category: Category): (r: seq<Project>)
    ensures |r| <= |projects|
    ensures forall i :: 0 <= i < |r| ==> r[i].category == category
    ensures forall i :: 0 <= i < |r| ==> r[i] in projects
  {
    if projects == [] then []
    else if projects[0].category == category then [projects[0]] + KeepCategory(projects[1..], category)
    else KeepCategory(projects[1..], category)
  }

  /** What a tab shows: everything for "all", otherwise the projects of that category. */
  function ProjectsByCategory(projects: seq<Project>, category: Category): (r: seq<Project>)
    ensures category == All ==> r == projects
    ensures category != All ==> forall i :: 0 <= i < |r| ==> r[i].category == category
    ensures |r| <= |projects|
  {
    if category == All then projects else KeepCategory(projects, category)
  }

  /** The filter drops nothing of its category and keeps nothing else: every
      project occurs in the result as often as in the input if it is tagged
      with the category, and not at all otherwise. */
  lemma {:induction false} KeepCategoryCount(projects: seq<Project>, category: Category, p: Project)
    ensures multiset(KeepCategory(projects, category))[p]
         == if p.category == category then multiset(projects)[p] else 0
  {
    if projects != [] {
      assert projects == [projects[0]] + projects[1..];
      KeepCategoryCount(projects[1..], category, p);
    }
  }

  /** idx lists, in increasing order, positions of s whose elements make up r. */
  ghost predicate Positions(idx: seq<nat>, r: seq<Project>, s: seq<Project>) {
    && |idx| == |r|
    && (forall i :: 0 <= i < |idx| ==> idx[i] < |s| && r[i] == s[idx[i]])
    && (forall i, j :: 0 <= i < j < |idx| ==> idx[i] < idx[j])
  }

  /** The result is exactly the projects of the category, taken at increasing
      positions of the input: idx lists those positions, so the relative
      order of the input is kept and no position of the category is missed. */
  lemma {:induction false} KeepCategoryPositions(projects: seq<Project>, category: Category)
    returns (idx: seq<nat>)
    ensures Positions(idx, KeepCategory(projects, category), projects)
    ensures forall k :: 0 <= k < |projects| && projects[k].category == category ==> k in idx
  {
    if projects == [] {
      idx := [];
    } else {
      var tail := projects[1..];
      var rest := KeepCategoryPositions(tail, category);
      var shifted := Shift(rest);
      ShiftPositions(rest, KeepCategory(tail, category), projects);
      forall k | 1 <= k < |projects| && projects[k].category == category
        ensures k in shifted
      {
        assert tail[k - 1] == projects[k];
        assert k - 1 in rest;
      }
      if projects[0].category == category {
        idx := [0] + shifted;
        ConsPosition(shifted, KeepCategory(tail, category), projects);
      } else {
        idx := shifted;
      }
    }
  }

  /** Every position moved up by one. */
  function Shift(idx: seq<nat>): (r: seq<nat>)
    ensures |r| == |idx| && forall i :: 0 <= i < |idx| ==> r[i] == idx[i] + 1
    ensures forall k :: k in idx <==> k + 1 in r
  {
    seq(|idx|, i requires 0 <= i < |idx| => idx[i] + 1)
  }

  /** Positions in the tail of s, moved up by one, are positions in s. */
  lemma ShiftPositions(rest: seq<nat>, r: seq<Project>, s: seq<Project>)
    requires |s| > 0 && Positions(rest, r, s[1..])
    ensures Positions(Shift(rest), r, s)
  {
  }

  /** Position 0 in front of positions that avoid 0 lists s[0] in front. */
  lemma ConsPosition(idx: seq<nat>, r: seq<Project>, s: seq<Project>)
    requires |s| > 0 && Positions(idx, r, s)
    requires forall i :: 0 <= i < |idx| ==> idx[i] > 0
    ensures Positions([0] + idx, [s[0]] + r, s)
  {
  }

  /** Filtering twice by the same category changes nothing. */
  lemma {:induction false} KeepCategoryIdempotent(projects: seq<Project>, category: Category)
    ensures KeepCategory(KeepCategory(projects, category), category) == KeepCategory(projects, category)
  {
    if projects != [] {
      KeepCategoryIdempotent(projects[1..], category);
    }
  }

  /** When every project is tagged web or ai, the two specific tabs split the
      list between them: together they hold each project exactly once. */
  lemma {:induction false} WebAndAiPartition(projects: seq<Project>)
    requires forall i :: 0 <= i < |projects| ==> projects[i].category != All
    ensures |KeepCategory(projects, Web)| + |KeepCategory(projects, Ai)| == |projects|
    ensures multiset(KeepCategory(projects, Web)) + multiset(KeepCategory(projects, Ai)) == multiset(projects)
  {
    if projects != [] {
      assert projects == [projects[0]] + projects[1..];
      WebAndAiPartition(projects[1..]);
    }
  }

  /** Filtering a concatenation filters each part. */
  lemma {:induction false} KeepCategoryAppend(a: seq<Project>, b: seq<Project>, category: Category)
    ensures KeepCategory(a + b, category) == KeepCategory(a, category) + KeepCategory(b, category)
  {
    if a == [] {
      assert a + b == b;
    } else {
      assert (a + b)[1..] == a[1..] + b;
      KeepCategoryAppend(a[1..], b, category);
    }
  }

  /** A list whose every project has the category passes the filter whole. */
  lemma {:induction false} KeepCategoryAll(projects: seq<Project>, category: Category)
    requires forall i :: 0 <= i < |projects| ==> projects[i].category == category
    ensures KeepCategory(projects, category) == projects
  {
    if projects != [] {
      KeepCategoryAll(projects[1..], category);
    }
  }

  /** A list with no project of the category filters to nothing. */
  lemma {:induction false} KeepCategoryNone(projects: seq<Project>, category: Category)
    requires forall i :: 0 <= i < |projects| ==> projects[i].category != category
    ensures KeepCategory(projects, category) == []
  {
    if projects != [] {
      KeepCategoryNone(projects[1..], category);
    }
  }

  /** A list whose leading part is all of one specific category and whose
      remaining part is all of the other: the two tabs split it at that point. */
  lemma SplitTabs(projects: seq<Project>, n: nat)
    requires n <= |projects|
    requires forall i :: 0 <= i < n ==> projects[i].category == Web
    requires forall i :: n <= i < |projects| ==> projects[i].category == Ai
    ensures ProjectsByCategory(projects, Web) == projects[..n]
    ensures ProjectsByCategory(projects, Ai) == projects[n..]
    ensures multiset(ProjectsByCategory(projects, Web)) + multiset(ProjectsByCategory(projects, Ai)) == multiset(projects)
  {
    var web, ai := projects[..n], projects[n..];
    assert projects == web + ai;
    KeepCategoryAppend(web, ai, Web);
    KeepCategoryAppend(web, ai, Ai);
    KeepCategoryAll(web, Web);
    KeepCategoryNone(ai, Web);
    KeepCategoryAll(ai, Ai);
    KeepCategoryNone(web, Ai);
  }

  /** The page's own list: the "all" tab shows all four projects, the web tab
      the first two and the ai tab the last two, so the two tabs partition it. */
  lemma CatalogTabs()
    ensures ProjectsByCategory(Catalog, All) == Catalog
    ensures ProjectsByCategory(Catalog, Web) == Catalog[..2]
    ensures ProjectsByCategory(Catalog, Ai) == Catalog[2..]
    ensures |ProjectsByCategory(Catalog, Web)| == 2 && |ProjectsByCategory(Catalog, Ai)| == 2
    ensures multiset(ProjectsByCategory(Catalog, Web)) + multiset(ProjectsByCategory(Catalog, Ai)) == multiset(Catalog)
  {
    assert Catalog[0].category == Web && Catalog[1].category == Web;
    assert Catalog[2].category == Ai && Catalog[3].category == Ai;
    SplitTabs(Catalog, 2);
  }
}
