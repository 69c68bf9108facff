/** The static project list (src/data/projects.ts): the `Project` record with
    its three-way category and optional links, and the eight shipped entries. */
module ProjectData {
  import opened Wrappers

  datatype Category = Web | Mobile | Backend

  /** The string a category is written as, which is what the filter
      buttons compare against. */
  function CategoryName(c: Category): string
  {
    match c
    case Web => "web"
    case Mobile => "mobile"
    case Backend => "backend"
  }

  /** A project record; `liveUrl` and `githubUrl` are optional (`None` is an
      absent key). */
  datatype Project = Project(
    title: string,
    description: string,
    image: string,
    technologies: seq<string>,
    category: Category,
    liveUrl: Option<string>,
    githubUrl: Option<string>)

  /** The shipped list, in display order. */
  const ProjectsData: seq<Project> := [
    StockSmart,
    CrayoAi,
    GameFlip,
    ComsatsHub,
    KwcConstruction,
    Tunify,
    QuizSystem,
    RentACar
  ]

  const StockSmart: Project := Project(
      "StockSmart (Pantry Tracker)",
      "A pantry tracker app with item inventory, recipe creation, sharing, and full CRUD functionality.",
      "https://i.postimg.cc/13qHj6jV/download.png",
      ["Next.js", "Firebase", "Tailwind CSS"],
      Web,
      Some("https://stocksmart-app.vercel.app"),
      Some("https://github.com/SalmanAhmad-code/StockSmart-Pantry-Tracker-App"))

  const CrayoAi: Project := Project(
      "Crayo AI (Customer Support Bot)",
      "An AI-powered customer support site using Gemini API, with Firebase authentication and a clean UI.",
      "https://i.postimg.cc/9X6WyHZP/Crayo-AI-2.png",
      ["Next.js", "Firebase", "Gemini API", "Tailwind CSS"],
      Web,
      Some(""),
      Some("https://github.com/SalmanAhmad-code/Crayo-AI-V2"))

  const GameFlip: Project := Project(
      "GameFlip (Gaming Flashcard SaaS)",
      "A SaaS platform for gaming-related flashcards with AI flashcard generation, user auth, Stripe subscriptions, and leaderboard.",
      "https://i.postimg.cc/5t9Zdsdk/download.png",
      ["Next.js", "OpenAI API", "Clerk", "Firebase", "Stripe"],
      Web,
      Some("https://game-flip.vercel.app/"),
      Some("https://github.com/SalmanAhmad-code/GameFlip"))

  const ComsatsHub: Project := Project(
      "Comsats Hub",
      "A community portal for COMSATS students featuring event updates, student resources, and announcements with responsive design and a clean UI.",
      "https://i.postimg.cc/kGnVxV2H/download.png",
      ["Typescript", "Vite", "Tailwind CSS", "Supabase"],
      Web,
      Some("https://comsatshub.vercel.app/"),
      Some("https://github.com/SalmanAhmad-code/ComsatsHub"))

  const KwcConstruction: Project := Project(
      "KWC Construction Website",
      "A real-world company website featuring project info and AI-powered quotation generation using Gemini API.",
      "https://i.postimg.cc/jd8DVd1H/download.png",
      ["Next.js", "Tailwind CSS", "Gemini API"],
      Web,
      Some("https://kwcconstruction.net"),
      Some(""))

  const Tunify: Project := Project(
      "Tunify (Spotify Clone)",
      "A frontend clone of Spotify with music playback, responsive UI, and styled using HTML, CSS, and JavaScript.",
      "https://i.postimg.cc/rpMGmHfM/download.png",
      ["HTML", "CSS", "JavaScript"],
      Web,
      Some(""),
      Some("https://github.com/SalmanAhmad-code/Spotify-Clone----Tunify"))

  const QuizSystem: Project := Project(
      "Quiz System",
      "A console-based quiz system developed in C that allows users to attempt quizzes, view scores, and test their knowledge in a simple terminal interface.",
      "https://i.postimg.cc/Zq8LbzqS/Screenshot-2025-05-10-130207.png",
      ["C"],
      Backend,
      Some(""),
      Some("https://github.com/SalmanAhmad-code/Quiz-Management-System"))

  const RentACar: Project := Project(
      "Rent a Car System",
      "A GUI-based car rental management application built in Java that handles car booking, returns, and user management with a simple interface.",
      "https://i.postimg.cc/tJhXZ8dj/Screenshot-2025-05-10-122725.png",
      ["Java", "JavaFX"],
      Backend,
      Some(""),
      Some("https://github.com/SalmanAhmad-code/Rent-A-Car-Management-System"))

  /** The category type admits exactly three names, and they are distinct. */
  lemma CategoryNames()
    ensures forall c: Category :: CategoryName(c) in {"web", "mobile", "backend"}
    ensures forall c1: Category, c2: Category :: CategoryName(c1) == CategoryName(c2) ==> c1 == c2
  {
  }

  /** The shipped list has eight entries, six web and two backend. */
  lemma ShippedData()
    ensures |ProjectsData| == 8
    ensures forall i :: 0 <= i < 6 ==> ProjectsData[i].category == Web
    ensures ProjectsData[6].category == Backend && ProjectsData[7].category == Backend
  {
  }
}
