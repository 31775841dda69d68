/** `PanacheContactRepository`: the contact-message table, as a
    `Tables.Table` of entity rows, listed in the modelled insertion order. */
module ContactRepository {
  import opened Wrappers
  import opened Backend
  import opened Tables
  import opened ContactMapper

  /** The row `save` writes for a message: its name, email, text and time,
      with the id the identity column assigns. */
  function Row(m: ContactDTO, id: int): (r: ContactMessageEntity)
    ensures r.id == Some(id)
    ensures r.(id := m.id) == ContactMessageEntity(m.id, m.name, m.email, m.message, m.createdAt)
  {
    ContactMessageEntity(Some(id), m.name, m.email, m.message, m.createdAt)
  }

  /** The incoming id plays no part in the stored row. */
  lemma RowIgnoresIncomingId(m: ContactDTO, id: int, other: Option<int>)
    ensures Row(m.(id := other), id) == Row(m, id)
  {
  }

  class PanacheContactRepository {
    var table: Table<ContactMessageEntity>

    predicate Valid()
      reads this
    {
      Tables.Valid(table) && forall id :: id in table.rows ==> table.rows[id].id == Some(id)
    }

    /** An empty table. */
    constructor ()
      ensures Valid() && table == Empty()
    {
      table := Empty();
    }

    /** `save`: a new row holding the message's name, email, text and time
        (its incoming id is not copied) is persisted under the next id; the
        message object itself then gets that id and is returned. */
    method Save(message: ContactMessage) returns (r: ContactMessage)
      requires Valid()
      modifies this, message
      ensures Valid()
      ensures r == message
      ensures message.id == Some(old(table).nextId)
      ensures table == Insert(old(table), Row(old(ToDTO(message)), old(table).nextId))
      ensures |table.rows| == |old(table).rows| + 1
      ensures ToDTO(message) == old(ToDTO(message)).(id := Some(old(table).nextId))
    {
      var id := table.nextId;
      table := Insert(table, Row(ToDTO(message), id));
      message.SetId(Some(id));
      r := message;
    }

    /** `findAll`: a new message object per row, in `listAll` order, with
        all five fields of the row. */
    method FindAll() returns (r: seq<ContactMessage>)
      requires Valid()
      ensures |r| == |table.order|
      ensures forall k :: 0 <= k < |r| ==> fresh(r[k])
      ensures forall k :: 0 <= k < |r| ==> Entity(r[k]) == table.rows[table.order[k]]
    {
      var rows := ListAll(table);
      r := [];
      var i := 0;
      while i < |rows|
        invariant 0 <= i <= |rows| && |r| == i
        invariant forall k :: 0 <= k < i ==> fresh(r[k])
        invariant forall k :: 0 <= k < i ==> Entity(r[k]) == rows[k]
      {
        var e := rows[i];
        var m := new ContactMessage(e.id, e.name, e.email, e.message, e.createdAt);
        r := r + [m];
        i := i + 1;
      }
    }
  }

  /** The row a message object holds, field by field. */
  function Entity(m: ContactMessage): (r: ContactMessageEntity)
    reads m
    ensures r.id == m.id
  {
    ContactMessageEntity(m.id, m.name, m.email, m.message, m.createdAt)
  }
}
