/** `ContactMapper`, with the domain `ContactMessage` object it converts
    (an object the repository later updates in place). `createdAt` is a
    timestamp kept abstract. */
module ContactMapper {
  import opened Wrappers
  import opened Backend

  /** The domain message; `setId` changes its id in place. */
  class ContactMessage {
    var id: Option<int>
    var name: string
    var email: string
    var message: string
    var createdAt: int

    constructor (id: Option<int>, name: string, email: string, message: string, createdAt: int)
      ensures this.id == id && this.name == name && this.email == email
      ensures this.message == message && this.createdAt == createdAt
    {
      this.id := id;
      this.name := name;
      this.email := email;
      this.message := message;
      this.createdAt := createdAt;
    }

    /** `setId`. */
    method SetId(id: Option<int>)
      modifies this
      ensures this.id == id
      ensures name == old(name) && email == old(email) && message == old(message) && createdAt == old(createdAt)
    {
      this.id := id;
    }
  }

  /** `ContactMapper.toDTO`: the five fields of the message. There is no
      null check: the message must exist. */
  function ToDTO(m: ContactMessage): (r: ContactDTO)
    reads m
    ensures r.id == m.id && r.createdAt == m.createdAt
  {
    ContactDTO(m.id, m.name, m.email, m.message, m.createdAt)
  }

  /** `ContactMapper.toDomain`: a new message with the DTO's five fields;
      converting it back gives the DTO. */
  method ToDomain(dto: ContactDTO) returns (m: ContactMessage)
    ensures fresh(m)
    ensures ToDTO(m) == dto
  {
    m := new ContactMessage(dto.id, dto.name, dto.email, dto.message, dto.createdAt);
  }

  /** A message rebuilt from its DTO holds the same five fields: the
      converse round trip. */
  method RoundTrip(m: ContactMessage) returns (copy: ContactMessage)
    ensures fresh(copy)
    ensures copy.id == m.id && copy.name == m.name && copy.email == m.email
    ensures copy.message == m.message && copy.createdAt == m.createdAt
  {
    copy := ToDomain(ToDTO(m));
  }
}
