/** `ProfileResource`: the single profile row of the portfolio (id 1),
    served with a built-in default while it does not exist, and replaced
    whole by an update. */
module ProfileResource {
  import opened Wrappers
  import opened Backend
  import Types
  import Seed

  /** The one row the resource reads and writes. */
  const ProfileId := 1

  /** The DTO `get` answers with while row 1 does not exist. */
  const DefaultProfile := ProfileDTO(
    Some(1),
    "SEBASTIAN MARRIAGA",
    "BACKEND DEVELOPER JUNIOR",
    "CÓDIGO SÓLIDO, INTERFACES FUNCIONALES, RESULTADOS REALES",
    "Barranquilla, Colombia (Remoto / Híbrido)",
    "ACTUALMENTE: APRENDIENDO QUARKUS",
    "PERFIL_HÍBRIDO",
    "Soy un Backend Developer Junior con una visión integral del desarrollo web. Mi fortaleza reside en la lógica del servidor, bases de datos y APIs, complementada con habilidades en Frontend (Angular/HTML/CSS).\n\nEsta versatilidad me permite construir soluciones completas, desde el \"motor\" hasta la interfaz, garantizando una comunicación fluida entre capas. Me defino por mi constancia, mentalidad de ingeniero y compromiso con la calidad.",
    "Inglés Técnico (Básico/Pre-Intermedio) - Lectura y escritura técnica.",
    "Quarkus",
    "https://avatars.githubusercontent.com/u/211703811?s=400&u=e09c4e6ffe4a2964a5092000a06af0ae8da045d8&v=4")

  /** The hero section a profile fills in on the public page. */
  function HeroOf(d: ProfileDTO): Types.Hero {
    Types.Hero(d.name, d.role, d.manifesto, d.location, d.status)
  }

  /** The "about" section a profile fills in on the public page. */
  function AboutOf(d: ProfileDTO): Types.About {
    Types.About(d.aboutTitle, d.aboutDescription, d.englishLevel, d.currentlyLearning, d.profileImage)
  }

  /** The default profile is the front end's seed hero and "about" texts,
      so a page served the default shows what it shows before loading. */
  lemma DefaultIsSeed()
    ensures HeroOf(DefaultProfile) == Seed.HeroData
    ensures AboutOf(DefaultProfile) == Seed.AboutData
  {
    assert DefaultProfile.aboutDescription == Seed.AboutDescription;
  }

  /** `map`: the DTO of a row, field by field. */
  function Map(e: ProfileEntity): (r: ProfileDTO)
    ensures r.id == Some(e.id)
    ensures Written(e.id, r) == e
  {
    ProfileDTO(Some(e.id), e.name, e.role, e.manifesto, e.location, e.status,
      e.aboutTitle, e.aboutDescription, e.englishLevel, e.currentlyLearning, e.profileImage)
  }

  /** The row `update` persists under `id`: all ten content fields come
      from the DTO, whose own id is ignored. */
  function Written(id: int, dto: ProfileDTO): (r: ProfileEntity)
    ensures r.id == id
  {
    ProfileEntity(id, dto.name, dto.role, dto.manifesto, dto.location, dto.status,
      dto.aboutTitle, dto.aboutDescription, dto.englishLevel, dto.currentlyLearning, dto.profileImage)
  }

  /** Reading back a written row gives the DTO with the row's id. */
  lemma MapWritten(id: int, dto: ProfileDTO)
    ensures Map(Written(id, dto)) == dto.(id := Some(id))
  {
  }

  class ProfileResource {
    /** The `portfolio_profile` table, by id. */
    var rows: map<int, ProfileEntity>

    predicate Valid()
      reads this
    {
      forall id :: id in rows ==> rows[id].id == id
    }

    /** `get`: row 1 when it exists, the default profile otherwise; the
        answer always has id 1. */
    function Get(): (r: ProfileDTO)
      reads this
      requires Valid()
      ensures r.id == Some(ProfileId)
      ensures ProfileId in rows ==> r == Map(rows[ProfileId])
      ensures ProfileId !in rows ==> r == DefaultProfile
    {
      if ProfileId in rows then Map(rows[ProfileId]) else DefaultProfile
    }

    /** `update`: row 1 is created when missing and gets all ten content
        fields of the DTO; nothing of its previous content survives and no
        other row changes. The answer, and every later `get`, is the DTO
        with id 1. */
    method Update(dto: ProfileDTO) returns (r: ProfileDTO)
      requires Valid()
      modifies this
      ensures Valid()
      ensures rows == old(rows)[ProfileId := Written(ProfileId, dto)]
      ensures r == dto.(id := Some(ProfileId))
      ensures Get() == r
    {
      rows := rows[ProfileId := Written(ProfileId, dto)];
      MapWritten(ProfileId, dto);
      r := Map(rows[ProfileId]);
    }
  }

  /** Two updates with the same content leave the same row 1, whatever the
      row held before and whatever ids the DTOs carried. */
  lemma UpdateReplacesWhole(d1: ProfileDTO, d2: ProfileDTO)
    requires d1.(id := None) == d2.(id := None)
    ensures Written(ProfileId, d1) == Written(ProfileId, d2)
  {
    assert d1.name == d2.name && d1.profileImage == d2.profileImage;
  }
}
