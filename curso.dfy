/** Curso: a course as the app shows and edits it, and CursoDTO, the shape the API
    sends and receives. The two conversions copy the six shared fields; the DTO's
    `UsuarioId` has no counterpart in a Curso and is dropped one way and left at 0 the
    other. Both types are plain records here: a conversion builds a new value and
    cannot touch its argument. */
module Cursos {
  import opened Numerics

  datatype Curso = Curso(
    id: int64,
    nombre: string,
    enlace: string,
    precio: Double,
    finalizado: bool,
    anotaciones: string)

  datatype CursoDTO = CursoDTO(
    id: int64,
    nombre: string,
    enlace: string,
    precio: Double,
    finalizado: bool,
    anotaciones: string,
    usuarioId: int64)

  /** A course and a DTO describe the same course: they agree on every shared field. */
  predicate SameCourse(c: Curso, dto: CursoDTO) {
    && c.id == dto.id
    && c.nombre == dto.nombre
    && c.enlace == dto.enlace
    && c.precio == dto.precio
    && c.finalizado == dto.finalizado
    && c.anotaciones == dto.anotaciones
  }

  /** The default constructor: the property initialisers and the type defaults. */
  function NewCurso(): (c: Curso)
    ensures c.id == 0 && c.precio == DoubleZero && !c.finalizado
    ensures c.nombre == "" && c.enlace == "" && c.anotaciones == ""
  {
    Curso(0, "", "", DoubleZero, false, "")
  }

  /** `new CursoDTO()`. */
  function NewCursoDTO(): (dto: CursoDTO)
    ensures dto.id == 0 && dto.usuarioId == 0 && dto.precio == DoubleZero && !dto.finalizado
    ensures dto.nombre == "" && dto.enlace == "" && dto.anotaciones == ""
  {
    CursoDTO(0, "", "", DoubleZero, false, "", 0)
  }

  /** The five-argument constructor: exactly those five fields differ from a default
      course; the id stays 0. */
  function NewCursoWith(nombre: string, enlace: string, precio: Double, finalizado: bool, anotaciones: string): (c: Curso)
    ensures c == NewCurso().(nombre := nombre, enlace := enlace, precio := precio,
                             finalizado := finalizado, anotaciones := anotaciones)
    ensures c.id == 0
  {
    Curso(0, nombre, enlace, precio, finalizado, anotaciones)
  }

  /** `Curso.FromDTO`: a course describing the same course as the DTO. */
  function FromDTO(dto: CursoDTO): (c: Curso)
    ensures SameCourse(c, dto)
  {
    Curso(dto.id, dto.nombre, dto.enlace, dto.precio, dto.finalizado, dto.anotaciones)
  }

  /** `Curso.ToDTO`: a DTO describing the same course, with the owner left at 0. */
  function ToDTO(c: Curso): (dto: CursoDTO)
    ensures SameCourse(c, dto)
    ensures dto.usuarioId == NewCursoDTO().usuarioId
  {
    CursoDTO(c.id, c.nombre, c.enlace, c.precio, c.finalizado, c.anotaciones, 0)
  }

  /** A course survives the trip to the API's shape and back. */
  lemma CourseRoundTrip(c: Curso)
    ensures FromDTO(ToDTO(c)) == c
  {
  }

  /** A DTO survives the trip through a course except for its owner, which becomes 0. */
  lemma DtoRoundTrip(dto: CursoDTO)
    ensures ToDTO(FromDTO(dto)) == dto.(usuarioId := 0)
    ensures ToDTO(FromDTO(dto)) == dto <==> dto.usuarioId == 0
  {
  }

  /** The owner is lost: DTOs that differ only in `UsuarioId` give the same course. */
  lemma FromDTOIgnoresUsuarioId(dto: CursoDTO, usuarioId: int64)
    ensures FromDTO(dto.(usuarioId := usuarioId)) == FromDTO(dto)
  {
  }

  /** The courses that describe a DTO are exactly its conversion. */
  lemma SameCourseIsFromDTO(c: Curso, dto: CursoDTO)
    ensures SameCourse(c, dto) <==> c == FromDTO(dto)
  {
  }
}
