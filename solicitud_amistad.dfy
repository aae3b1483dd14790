/** SolicitudAmistad: a friend request between two users. Its equality is by id, with
    id 0 standing for "not yet saved": such a request equals only itself. Requests are
    objects here because `Equals` first compares references. */
module Amistad {
  import opened Numerics

  /** `UsuarioDTO`, as far as a request holds one. */
  class UsuarioDTO {
    var id: int64
    var nombre: string
    var descripcion: string
    var icono: string

    /** The default constructor: id 0 and empty strings. */
    constructor ()
      ensures id == 0 && nombre == "" && descripcion == "" && icono == ""
    {
      id := 0;
      nombre := "";
      descripcion := "";
      icono := "";
    }
  }

  class SolicitudAmistad {
    var id: int64
    var emisor: UsuarioDTO
    var receptor: UsuarioDTO

    /** The default constructor: id 0 and two new, distinct users. */
    constructor ()
      ensures id == 0
      ensures fresh(emisor) && fresh(receptor) && emisor != receptor
    {
      id := 0;
      emisor := new UsuarioDTO();
      receptor := new UsuarioDTO();
    }

    /** The two-argument constructor: the given users, id 0. */
    constructor WithUsers(emisor: UsuarioDTO, receptor: UsuarioDTO)
      ensures id == 0 && this.emisor == emisor && this.receptor == receptor
    {
      id := 0;
      this.emisor := emisor;
      this.receptor := receptor;
    }

    /** `Equals`: the same object; otherwise another request with the same non-zero id. */
    function Equals(obj: object?): (r: bool)
      reads this, obj
      ensures obj == this ==> r
      ensures obj == null || !(obj is SolicitudAmistad) ==> !r
      ensures obj != this && obj is SolicitudAmistad ==>
        (r <==> id != 0 && id == (obj as SolicitudAmistad).id)
    {
      if obj == this then true
      else if obj == null || !(obj is SolicitudAmistad) then false
      else
        var other := obj as SolicitudAmistad;
        id != 0 && id == other.id
    }

    /** `GetHashCode`: 0 for an unsaved request, otherwise the hash of the id alone. */
    function GetHashCode(): (h: int32)
      reads this
      ensures id == 0 ==> h == 0
      ensures id != 0 ==> h == Int64HashCode(id)
    {
      if id != 0 then Int64HashCode(id) else 0
    }
  }

  /** A request with id 0 equals no other request, whatever that one's id. */
  lemma UnsavedEqualsOnlyItself(a: SolicitudAmistad, b: SolicitudAmistad)
    requires a.id == 0 && a != b
    ensures !a.Equals(b) && !b.Equals(a)
  {
  }

  lemma EqualsSymmetric(a: SolicitudAmistad, b: SolicitudAmistad)
    ensures a.Equals(b) <==> b.Equals(a)
  {
  }

  lemma EqualsTransitive(a: SolicitudAmistad, b: SolicitudAmistad, c: SolicitudAmistad)
    requires a.Equals(b) && b.Equals(c)
    ensures a.Equals(c)
  {
  }

  /** Equal requests hash alike, as `Dictionary` and `HashSet` need. */
  lemma EqualsImpliesSameHash(a: SolicitudAmistad, b: SolicitudAmistad)
    requires a.Equals(b)
    ensures a.GetHashCode() == b.GetHashCode()
  {
  }

  /** Two requests built with the default constructor are never equal: both have id 0. */
  method NewRequestsAreDistinct() returns (a: SolicitudAmistad, b: SolicitudAmistad)
    ensures !a.Equals(b) && !b.Equals(a)
    ensures a.Equals(a) && b.Equals(b)
  {
    a := new SolicitudAmistad();
    b := new SolicitudAmistad();
  }
}
