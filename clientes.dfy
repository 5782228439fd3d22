/** Client records and the pure list operations the view uses to reconcile
    its local list with the server's answers: appending a created record,
    replacing the records of an updated id (`map`) and dropping the records
    of a deleted id (`filter`). */
module Clientes {

  datatype Option<T> = None | Some(value: T)

  /** The server-assigned identifier (`_id`). */
  type Id = string

  /** A client record as the server returns it. */
  datatype Cliente = Cliente(id: Id, nombre: string, sueldo: real, antiguedad: real, bono: real)

  /** No two entries share an id. */
  ghost predicate IdsUnicos(cs: seq<Cliente>)
  {
    forall i, j :: 0 <= i < j < |cs| ==> cs[i].id != cs[j].id
  }

  /** Some entry has the given id. */
  ghost predicate TieneId(cs: seq<Cliente>, id: Id)
  {
    exists i :: 0 <= i < |cs| && cs[i].id == id
  }

  /** How many entries have the given id. */
  function Ocurrencias(cs: seq<Cliente>, id: Id): (n: nat)
    ensures n <= |cs|
  {
    if cs == [] then 0
    else (if cs[0].id == id then 1 else 0) + Ocurrencias(cs[1..], id)
  }

  /** `cs.filter(c => c._id !== id)`: the entries whose id differs, in order. */
  function Eliminar(cs: seq<Cliente>, id: Id): (r: seq<Cliente>)
    ensures |r| <= |cs|
    ensures forall c :: c in r ==> c in cs && c.id != id
  {
    if cs == [] then []
    else if cs[0].id != id then [cs[0]] + Eliminar(cs[1..], id)
    else Eliminar(cs[1..], id)
  }

  /** `cs.map(c => c._id === id ? nuevo : c)`: every entry with the id
      becomes `nuevo`, every other entry stays. */
  function Reemplazar(cs: seq<Cliente>, id: Id, nuevo: Cliente): (r: seq<Cliente>)
    ensures |r| == |cs|
  {
    if cs == [] then []
    else [if cs[0].id == id then nuevo else cs[0]] + Reemplazar(cs[1..], id, nuevo)
  }

  // ---- Eliminar ----

  /** An entry survives deletion exactly when it was there and has another id. */
  lemma {:induction false} EliminarMiembros(cs: seq<Cliente>, id: Id, c: Cliente)
    ensures c in Eliminar(cs, id) <==> c in cs && c.id != id
  {
    if cs != [] {
      EliminarMiembros(cs[1..], id, c);
      assert cs == [cs[0]] + cs[1..];
    }
  }

  /** Deletion distributes over concatenation, so it keeps the relative
      order of the surviving entries. */
  lemma {:induction false} EliminarConcatena(a: seq<Cliente>, b: seq<Cliente>, id: Id)
    ensures Eliminar(a + b, id) == Eliminar(a, id) + Eliminar(b, id)
  {
    if a != [] {
      assert (a + b)[0] == a[0];
      assert (a + b)[1..] == a[1..] + b;
      EliminarConcatena(a[1..], b, id);
    } else {
      assert a + b == b;
    }
  }

  /** Deletion drops exactly the entries carrying the id. */
  lemma {:induction false} EliminarLongitud(cs: seq<Cliente>, id: Id)
    ensures |Eliminar(cs, id)| == |cs| - Ocurrencias(cs, id)
  {
    if cs != [] {
      EliminarLongitud(cs[1..], id);
    }
  }

  /** Deleting an id that no entry carries changes nothing. */
  lemma {:induction false} EliminarSinId(cs: seq<Cliente>, id: Id)
    requires !TieneId(cs, id)
    ensures Eliminar(cs, id) == cs
  {
    if cs != [] {
      assert !TieneId(cs[1..], id) by {
        forall i | 0 <= i < |cs[1..]| ensures cs[1..][i].id != id {
          assert cs[1..][i] == cs[i + 1];
        }
      }
      EliminarSinId(cs[1..], id);
      assert cs[0].id != id;
      assert cs == [cs[0]] + cs[1..];
    }
  }

  /** After deletion no entry carries the id, and deleting again is a no-op. */
  lemma EliminarIdempotente(cs: seq<Cliente>, id: Id)
    ensures !TieneId(Eliminar(cs, id), id)
    ensures Eliminar(Eliminar(cs, id), id) == Eliminar(cs, id)
  {
  }

  /** With unique ids an id that is present occurs exactly once. */
  lemma {:induction false} UnicoOcurreUnaVez(cs: seq<Cliente>, id: Id)
    requires IdsUnicos(cs)
    ensures Ocurrencias(cs, id) == (if TieneId(cs, id) then 1 else 0)
  {
    if cs != [] {
      var rest := cs[1..];
      ColaUnica(cs);
      UnicoOcurreUnaVez(rest, id);
      if cs[0].id == id {
        assert TieneId(cs, id);
        assert !TieneId(rest, id) by {
          forall i | 0 <= i < |rest| ensures rest[i].id != id {
            assert rest[i] in rest;
          }
        }
      } else {
        if TieneId(cs, id) {
          var i :| 0 <= i < |cs| && cs[i].id == id;
          assert i > 0 && rest[i - 1] == cs[i];
        }
        if TieneId(rest, id) {
          var i :| 0 <= i < |rest| && rest[i].id == id;
          assert cs[i + 1] == rest[i];
        }
      }
    }
  }

  /** With unique ids, deleting a present id shortens the list by one. */
  lemma EliminarUnicoQuitaUno(cs: seq<Cliente>, id: Id)
    requires IdsUnicos(cs) && TieneId(cs, id)
    ensures |Eliminar(cs, id)| == |cs| - 1
  {
    EliminarLongitud(cs, id);
    UnicoOcurreUnaVez(cs, id);
  }

  /** The tail of a list with unique ids has unique ids, and no entry of it
      shares the head's id. */
  lemma ColaUnica(cs: seq<Cliente>)
    requires IdsUnicos(cs) && cs != []
    ensures IdsUnicos(cs[1..])
    ensures forall c :: c in cs[1..] ==> c.id != cs[0].id
  {
    var rest := cs[1..];
    forall i, j | 0 <= i < j < |rest| ensures rest[i].id != rest[j].id {
      assert rest[i] == cs[i + 1] && rest[j] == cs[j + 1];
    }
    forall c | c in rest ensures c.id != cs[0].id {
      var k :| 0 <= k < |rest| && rest[k] == c;
      assert cs[k + 1] == c;
    }
  }

  /** Putting a record in front of a list with unique ids keeps them unique
      when no entry shares its id. */
  lemma AnteponerUnico(x: Cliente, t: seq<Cliente>)
    requires IdsUnicos(t)
    requires forall c :: c in t ==> c.id != x.id
    ensures IdsUnicos([x] + t)
  {
    var r := [x] + t;
    forall i, j | 0 <= i < j < |r| ensures r[i].id != r[j].id {
      assert r[j] == t[j - 1];
      if i > 0 {
        assert r[i] == t[i - 1];
      }
    }
  }

  /** Deletion preserves unique ids. */
  lemma {:induction false} EliminarPreservaUnicidad(cs: seq<Cliente>, id: Id)
    requires IdsUnicos(cs)
    ensures IdsUnicos(Eliminar(cs, id))
  {
    if cs != [] {
      ColaUnica(cs);
      EliminarPreservaUnicidad(cs[1..], id);
      if cs[0].id != id {
        AnteponerUnico(cs[0], Eliminar(cs[1..], id));
      }
    }
  }

  /** Appending a record with a fresh id and then deleting that id gives
      back the original list: deletion undoes creation. */
  lemma CrearLuegoEliminar(cs: seq<Cliente>, nuevo: Cliente)
    requires !TieneId(cs, nuevo.id)
    ensures Eliminar(cs + [nuevo], nuevo.id) == cs
  {
    EliminarConcatena(cs, [nuevo], nuevo.id);
    EliminarSinId(cs, nuevo.id);
    assert Eliminar([nuevo], nuevo.id) == [];
  }

  /** Appending a record with a fresh id preserves unique ids. */
  lemma AgregarPreservaUnicidad(cs: seq<Cliente>, nuevo: Cliente)
    requires IdsUnicos(cs) && !TieneId(cs, nuevo.id)
    ensures IdsUnicos(cs + [nuevo])
  {
  }

  // ---- Reemplazar ----

  /** Position by position, an entry with the id becomes `nuevo` and every
      other entry is untouched at its index. */
  lemma {:induction false} ReemplazarEn(cs: seq<Cliente>, id: Id, nuevo: Cliente, i: nat)
    requires i < |cs|
    ensures Reemplazar(cs, id, nuevo)[i] == if cs[i].id == id then nuevo else cs[i]
  {
    if i > 0 {
      ReemplazarEn(cs[1..], id, nuevo, i - 1);
    }
  }

  /** Replacing an id that no entry carries changes nothing: the answer to
      an update of a record that is no longer listed is dropped. */
  lemma ReemplazarSinId(cs: seq<Cliente>, id: Id, nuevo: Cliente)
    requires !TieneId(cs, id)
    ensures Reemplazar(cs, id, nuevo) == cs
  {
  }

  /** The new record is listed after replacement when the id was listed,
      and is absent when neither it nor the id was listed before. */
  lemma ReemplazarContiene(cs: seq<Cliente>, id: Id, nuevo: Cliente)
    ensures TieneId(cs, id) ==> nuevo in Reemplazar(cs, id, nuevo)
    ensures nuevo !in cs && !TieneId(cs, id) ==> nuevo !in Reemplazar(cs, id, nuevo)
  {
  }

  /** Replacing by a record that keeps the id preserves unique ids. */
  lemma ReemplazarPreservaUnicidad(cs: seq<Cliente>, id: Id, nuevo: Cliente)
    requires IdsUnicos(cs) && nuevo.id == id
    ensures IdsUnicos(Reemplazar(cs, id, nuevo))
  {
    var r := Reemplazar(cs, id, nuevo);
    forall i, j | 0 <= i < j < |r| ensures r[i].id != r[j].id {
      ReemplazarEn(cs, id, nuevo, i);
      ReemplazarEn(cs, id, nuevo, j);
    }
  }
}
