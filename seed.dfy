/** The static seed catalog of constants.tsx: the hero and "about" texts,
    the four-column skill arsenal and the three built-in projects. The public
    page shows these before (and instead of) anything the back end sends. */
module Seed {
  import opened Types
  import opened Seqs

  const HeroData := Hero(
    "SEBASTIAN MARRIAGA",
    "BACKEND DEVELOPER JUNIOR",
    "CÓDIGO SÓLIDO, INTERFACES FUNCIONALES, RESULTADOS REALES",
    "Barranquilla, Colombia (Remoto / Híbrido)",
    "ACTUALMENTE: APRENDIENDO QUARKUS")

  const AboutDescription :=
    "Soy un Backend Developer Junior con una visión integral del desarrollo web. Mi fortaleza reside en la lógica del servidor, bases de datos y APIs, complementada con habilidades en Frontend (Angular/HTML/CSS).\n\nEsta versatilidad me permite construir soluciones completas, desde el \"motor\" hasta la interfaz, garantizando una comunicación fluida entre capas. Me defino por mi constancia, mentalidad de ingeniero y compromiso con la calidad."

  /** What the "about" section says is being learned. */
  const LearningTarget := "Quarkus"

  const AboutData := About(
    "PERFIL_HÍBRIDO",
    AboutDescription,
    "Inglés Técnico (Básico/Pre-Intermedio) - Lectura y escritura técnica.",
    LearningTarget,
    "https://avatars.githubusercontent.com/u/211703811?s=400&u=e09c4e6ffe4a2964a5092000a06af0ae8da045d8&v=4")

  const TechStack := [
    TechCategory("LENGUAJES & FRONTEND",
      ["Java (Principal)", "JavaScript / TypeScript", "Python 3", "HTML5 & CSS3", "Angular (Nivel Básico)"]),
    TechCategory("BACKEND FRAMEWORKS",
      ["Spring Boot 3", "Node.js + Express", "JPA / Hibernate", "Manejo de APIs REST"]),
    TechCategory("DATOS & PERSISTENCIA",
      ["PostgreSQL", "MySQL", "MongoDB (Nivel Básico)", "Diseño de Esquemas ER"]),
    TechCategory("HERRAMIENTAS & CONCEPTOS",
      ["Git & GitHub", "Postman / Swagger", "JWT Auth", "Clean Code", "Arquitectura en Capas"])
  ]

  /** The index the bucketing falls back to when no column title matches. */
  const FallbackIndex := 3

  const OpenBook := Project(
    "1",
    "Open Book",
    "BACKEND / API",
    ["JavaScript", "Node.js", "Express", "MySQL", "JWT Auth", "Open Library API"],
    "API RESTful para el descubrimiento y gestión de libros, con ingesta masiva desde Open Library.",
    "Sincronizar miles de libros desde una API externa garantizando integridad y bajo tiempo de respuesta.",
    "Motores de ingesta masiva, transacciones SQL, Rate Limiting y limpieza de datos no estructurados.",
    ["Sincronización automática con Open Library",
     "API RESTful con búsqueda avanzada y paginación",
     "Gestión de estados de lectura y favoritos",
     "Seguridad mediante Middleware y JWT"],
    "https://github.com/TianMHDev/OpenBook.git",
    "https://openbook-7anq.onrender.com/",
    [ProjectImage("/projects/landingpageopenbook.webp", "Landing Page", "screenshot"),
     ProjectImage("/projects/catalogosopenbook.webp", "Catálogo", "screenshot"),
     ProjectImage("/projects/loginopenbook.webp", "Login", "screenshot"),
     ProjectImage("/projects/registeropenbook.webp", "Registro", "screenshot")],
    "1.1.0")

  const TaskManagement := Project(
    "2",
    "Task Management System",
    "FULLSTACK / JAVA",
    ["Java", "Spring Boot", "MySQL", "Docker", "Postman", "JWT Auth", "Arquitectura Hexagonal"],
    "Gestión empresarial de proyectos: Backend en Spring Boot, Arquitectura Hexagonal y Frontend en Vanilla JS.",
    "Desarrollar un sistema altamente desacoplado y escalable evitando las limitaciones de las capas tradicionales.",
    "Implementación de Puertos y Adaptadores, independencia del dominio y optimización con Spring Cache.",
    ["Autenticación robusta con JWT",
     "Contenerización con Docker & Cloud MySQL",
     "Arquitectura Hexagonal Pura",
     "Optimistic UI para respuesta instantánea"],
    "https://github.com/TianMHDev/Sistema-de-Gesti-n-de-Proyectos-y-Tareas.git",
    "https://sistema-de-gesti-n-de-proyectos-y-t.vercel.app/",
    [ProjectImage("/projects/proyectostaskflow.webp", "Dashboard Proyectos", "screenshot"),
     ProjectImage("/projects/tareastaskflow.webp", "Gestión de Tareas", "screenshot"),
     ProjectImage("/projects/logintaskflow.webp", "Acceso", "screenshot"),
     ProjectImage("/projects/registertaskflow.webp", "Registro de Equipo", "screenshot")],
    "1.1.0")

  const VortexIncident := Project(
    "3",
    "Vortex Incident",
    "BACKEND / JAVA / SPRING BOOT",
    ["Java", "Spring Boot", "PostgreSQL", "Docker", "Postman", "JWT Auth", "Arquitectura Hexagonal"],
    "Motor de gestión de incidentes con automatización de SLAs y clasificación de criticidad.",
    "Gestionar ineficiencias mediante la automatización de prioridades y seguimiento de niveles de servicio.",
    "Microservicios en Java con Arquitectura Hexagonal, garantizando desacoplamiento total y escalabilidad.",
    ["Gestión automatizada de SLAs y prioridad",
     "Arquitectura Hexagonal (Domain-Centric)",
     "Persistencia relacional avanzada con PostgreSQL",
     "Infraestructura contenerizada con Docker"],
    "https://github.com/Vortex-Incidents/vortex-frontend-react.git",
    "https://vortex-frontend-react.vercel.app/",
    [ProjectImage("/projects/landingpagevortex.webp", "Vortex Home", "screenshot"),
     ProjectImage("/projects/loginvortex.webp", "Autenticación", "screenshot"),
     ProjectImage("/projects/adminvortex.webp", "Panel Admin", "screenshot"),
     ProjectImage("/projects/empleadovortex.webp", "Vista Empleado", "screenshot")],
    "1.1.0")

  const Projects := [OpenBook, TaskManagement, VortexIncident]

  function Titles(stack: seq<TechCategory>): (r: seq<string>)
    ensures |r| == |stack|
    ensures forall k :: 0 <= k < |stack| ==> r[k] == stack[k].title
  {
    if stack == [] then [] else [stack[0].title] + Titles(stack[1..])
  }

  /** The arsenal has four columns, and the fallback column exists and is
      the tools-and-concepts one. */
  lemma TechStackShape()
    ensures |TechStack| == 4 && 0 <= FallbackIndex < |TechStack|
    ensures TechStack[FallbackIndex].title == "HERRAMIENTAS & CONCEPTOS"
  {
  }

  /** No skill is listed twice within a seed column. */
  lemma SeedSkillsDistinct()
    ensures forall k :: 0 <= k < |TechStack| ==> Distinct(TechStack[k].skills)
  {
  }

  /** The seed projects have pairwise distinct ids and titles. */
  lemma SeedProjectsDistinct()
    ensures forall i, j :: 0 <= i < j < |Projects| ==> Projects[i].id != Projects[j].id
    ensures forall i, j :: 0 <= i < j < |Projects| ==> Projects[i].title != Projects[j].title
  {
  }

  /** Every seed project shows four screenshots and is at version 1.1.0. */
  lemma SeedProjectsShape()
    ensures forall p :: p in Projects ==>
      |p.images| == 4 && p.version == "1.1.0" &&
      forall im :: im in p.images ==> im.imageType == "screenshot"
  {
  }

  /** The four column titles, in order. */
  lemma TechStackTitles()
    ensures Titles(TechStack) ==
      ["LENGUAJES & FRONTEND", "BACKEND FRAMEWORKS", "DATOS & PERSISTENCIA", "HERRAMIENTAS & CONCEPTOS"]
  {
  }
}
