/** The fire-extinguisher collection: records keyed by a surrogate integer `id`, created,
    updated, replaced (by id or by vehicle) and deleted. */
module Matafuegos {
  import opened Expiry
  import opened Collections

  /** One entry of an extinguisher's replacement history. */
  datatype Replacement = Replacement(
    fechaReemplazo: Date,
    numeroMatafuegoAnterior: string,
    numeroMatafuegoNuevo: string,
    fechaVencimientoAnterior: Date,
    fechaVencimientoNueva: Date,
    observaciones: string)

  /** A stored extinguisher: the unit's number, the vehicle (`numeroCoche`) carrying it, its
      expiry date and its replacement history. */
  datatype Extinguisher = Extinguisher(
    id: int,
    numeroMatafuego: string,
    numeroCoche: string,
    fechaVencimiento: Date,
    historialReemplazos: seq<Replacement>)

  /** The fields of a create or update request; a missing text field is "", a missing date None. */
  datatype ExtinguisherForm = ExtinguisherForm(
    numeroMatafuego: string,
    numeroCoche: string,
    fechaVencimiento: Option<Date>)

  /** An extinguisher as a handler answers it: the stored record and its status on that day. */
  datatype ExtinguisherView = ExtinguisherView(matafuego: Extinguisher, estado: Status)

  /** Every field of the form is present and non-empty: the guard of the create and update
      handlers, whose contracts state the rejection. */
  predicate Complete(f: ExtinguisherForm) {
    f.numeroMatafuego != "" && f.numeroCoche != "" && f.fechaVencimiento.Some?
  }

  /** The ids of `s`, in order. */
  function Ids(s: seq<Extinguisher>): (ks: seq<int>)
    ensures |ks| == |s|
    ensures forall i :: 0 <= i < |s| ==> ks[i] == s[i].id
  {
    if s == [] then [] else [s[0].id] + Ids(s[1..])
  }

  /** The vehicle numbers of `s`, in order. */
  function Coches(s: seq<Extinguisher>): (ks: seq<string>)
    ensures |ks| == |s|
    ensures forall i :: 0 <= i < |s| ==> ks[i] == s[i].numeroCoche
  {
    if s == [] then [] else [s[0].numeroCoche] + Coches(s[1..])
  }

  lemma IdsUpdate(s: seq<Extinguisher>, i: int, m: Extinguisher)
    requires 0 <= i < |s| && m.id == s[i].id
    ensures Ids(s[i := m]) == Ids(s)
  {
    var a, b := Ids(s[i := m]), Ids(s);
    forall j | 0 <= j < |a| ensures a[j] == b[j] {}
  }

  lemma IdsRemoveAt(s: seq<Extinguisher>, i: int)
    requires 0 <= i < |s|
    ensures Ids(RemoveAt(s, i)) == RemoveAt(Ids(s), i)
  {
    var t := RemoveAt(s, i);
    var a, b := Ids(t), RemoveAt(Ids(s), i);
    forall j | 0 <= j < |a| ensures a[j] == b[j] {
      if j < i {
        assert t[j] == s[j];
      } else {
        assert t[j] == s[j + 1];
      }
    }
  }

  lemma IdsAppend(s: seq<Extinguisher>, m: Extinguisher)
    ensures Ids(s + [m]) == Ids(s) + [m.id]
  {
    var a, b := Ids(s + [m]), Ids(s) + [m.id];
    forall j | 0 <= j < |a| ensures a[j] == b[j] {
      assert (s + [m])[j] == if j < |s| then s[j] else m;
    }
  }

  /** The largest of a non-empty sequence of ids. */
  function MaxOf(ids: seq<int>): (m: int)
    requires |ids| > 0
    ensures m in ids
    ensures forall k :: k in ids ==> k <= m
  {
    if |ids| == 1 then ids[0]
    else
      var rest := MaxOf(ids[1..]);
      assert ids == [ids[0]] + ids[1..];
      if ids[0] >= rest then ids[0] else rest
  }

  /** The id given to a new extinguisher: one more than the largest id, or 1 when there is
      none. It is larger than every id in use, so it is fresh. */
  function NextId(ids: seq<int>): (n: int)
    ensures ids == [] ==> n == 1
    ensures ids != [] ==> n - 1 in ids
    ensures forall k :: k in ids ==> k < n
  {
    if |ids| > 0 then MaxOf(ids) + 1 else 1
  }

  /** Ids are not reserved: when the newest extinguisher is deleted, the next one created
      receives its id again. */
  lemma DeletedNewestIdIsReused(s: seq<Extinguisher>, m: Extinguisher)
    requires m.id == NextId(Ids(s))
    ensures IndexOf(Ids(s + [m]), m.id) == |s|
    ensures NextId(Ids(RemoveAt(s + [m], |s|))) == m.id
  {
    IdsAppend(s, m);
    IndexOfAppended(Ids(s), m.id);
    RemoveLastAppended(s, m);
  }

  function View(m: Extinguisher, today: Date): ExtinguisherView {
    ExtinguisherView(m, StatusOf(m.fechaVencimiento, today))
  }

  /** The extinguishers, as the handlers load and save them. */
  class ExtinguisherStore {
    var matafuegos: seq<Extinguisher>

    /** No two extinguishers share an id. */
    ghost predicate Valid()
      reads this
    {
      Distinct(Ids(matafuegos))
    }

    constructor (initial: seq<Extinguisher>)
      ensures matafuegos == initial
    {
      matafuegos := initial;
    }

    /** Adds an extinguisher under a fresh id with an empty replacement history. Neither the
        unit number nor the vehicle number is checked for uniqueness. */
    method Create(form: ExtinguisherForm, today: Date) returns (r: Result<ExtinguisherView>)
      modifies this
      ensures !Complete(form) ==> r == Failure(InvalidInput) && matafuegos == old(matafuegos)
      ensures Complete(form) ==>
        var nuevo := Extinguisher(NextId(Ids(old(matafuegos))), form.numeroMatafuego, form.numeroCoche,
                                  form.fechaVencimiento.value, []);
        matafuegos == old(matafuegos) + [nuevo] && r == Success(View(nuevo, today))
      ensures old(Valid()) ==> Valid()
    {
      if !Complete(form) {
        return Failure(InvalidInput);
      }
      var nuevoId := NextId(Ids(matafuegos));
      var nuevo := Extinguisher(nuevoId, form.numeroMatafuego, form.numeroCoche, form.fechaVencimiento.value, []);
      matafuegos := matafuegos + [nuevo];
      r := Success(View(nuevo, today));
      assert Ids(matafuegos) == old(Ids(matafuegos)) + [nuevoId];
      if old(Valid()) {
        DistinctAppend(old(Ids(matafuegos)), nuevoId);
      }
    }

    /** Replaces the three data fields of the extinguisher `id`, keeping its id and its
        replacement history. A missing field is reported before an absent id. */
    method Update(id: int, form: ExtinguisherForm, today: Date) returns (r: Result<ExtinguisherView>)
      modifies this
      ensures !Complete(form) ==> r == Failure(InvalidInput) && matafuegos == old(matafuegos)
      ensures Complete(form) && id !in Ids(old(matafuegos)) ==>
        r == Failure(NotFound) && matafuegos == old(matafuegos)
      ensures Complete(form) && id in Ids(old(matafuegos)) ==>
        var i := IndexOf(Ids(old(matafuegos)), id);
        var updated := Extinguisher(id, form.numeroMatafuego, form.numeroCoche, form.fechaVencimiento.value,
                                    old(matafuegos)[i].historialReemplazos);
        matafuegos == old(matafuegos)[i := updated] && r == Success(View(updated, today))
      ensures Ids(matafuegos) == Ids(old(matafuegos))
    {
      if !Complete(form) {
        return Failure(InvalidInput);
      }
      var index := IndexOf(Ids(matafuegos), id);
      if index == -1 {
        return Failure(NotFound);
      }
      var historial := matafuegos[index].historialReemplazos;
      var updated := Extinguisher(id, form.numeroMatafuego, form.numeroCoche, form.fechaVencimiento.value, historial);
      IdsUpdate(matafuegos, index, updated);
      matafuegos := matafuegos[index := updated];
      r := Success(View(updated, today));
    }

    /** Refreshes the expiry date of the first extinguisher carried by vehicle `numeroCoche`.
        The history entry records the current unit number as both the previous and the new
        number; only the expiry date of the record changes. */
    method ReplaceByVehicle(numeroCoche: string, nuevaFechaVencimiento: Option<Date>,
                            observaciones: Option<string>, today: Date)
      returns (r: Result<ExtinguisherView>)
      modifies this
      ensures (numeroCoche == "" || nuevaFechaVencimiento.None?) ==>
        r == Failure(InvalidInput) && matafuegos == old(matafuegos)
      ensures numeroCoche != "" && nuevaFechaVencimiento.Some? && numeroCoche !in Coches(old(matafuegos)) ==>
        r == Failure(NotFound) && matafuegos == old(matafuegos)
      ensures numeroCoche != "" && nuevaFechaVencimiento.Some? && numeroCoche in Coches(old(matafuegos)) ==>
        var i := IndexOf(Coches(old(matafuegos)), numeroCoche);
        var before := old(matafuegos)[i];
        var entry := Replacement(today, before.numeroMatafuego, before.numeroMatafuego,
                                 before.fechaVencimiento, nuevaFechaVencimiento.value, observaciones.GetOr(""));
        var replaced := before.(fechaVencimiento := nuevaFechaVencimiento.value,
                                historialReemplazos := before.historialReemplazos + [entry]);
        matafuegos == old(matafuegos)[i := replaced] && r == Success(View(replaced, today))
      ensures Ids(matafuegos) == Ids(old(matafuegos))
    {
      if numeroCoche == "" || nuevaFechaVencimiento.None? {
        return Failure(InvalidInput);
      }
      var index := IndexOf(Coches(matafuegos), numeroCoche);
      if index == -1 {
        return Failure(NotFound);
      }
      var before := matafuegos[index];
      var entry := Replacement(today, before.numeroMatafuego, before.numeroMatafuego,
                               before.fechaVencimiento, nuevaFechaVencimiento.value, observaciones.GetOr(""));
      var replaced := before.(fechaVencimiento := nuevaFechaVencimiento.value,
                              historialReemplazos := before.historialReemplazos + [entry]);
      IdsUpdate(matafuegos, index, replaced);
      matafuegos := matafuegos[index := replaced];
      r := Success(View(replaced, today));
    }

    /** Swaps the unit of extinguisher `id`: the history entry records the old and the new unit
        number and expiry date, and both live fields take the new values. Missing fields are
        reported before an absent id. */
    method ReplaceById(id: int, nuevoNumeroMatafuego: string, nuevaFechaVencimiento: Option<Date>,
                       observaciones: Option<string>, today: Date)
      returns (r: Result<ExtinguisherView>)
      modifies this
      ensures (nuevoNumeroMatafuego == "" || nuevaFechaVencimiento.None?) ==>
        r == Failure(InvalidInput) && matafuegos == old(matafuegos)
      ensures nuevoNumeroMatafuego != "" && nuevaFechaVencimiento.Some? && id !in Ids(old(matafuegos)) ==>
        r == Failure(NotFound) && matafuegos == old(matafuegos)
      ensures nuevoNumeroMatafuego != "" && nuevaFechaVencimiento.Some? && id in Ids(old(matafuegos)) ==>
        var i := IndexOf(Ids(old(matafuegos)), id);
        var before := old(matafuegos)[i];
        var entry := Replacement(today, before.numeroMatafuego, nuevoNumeroMatafuego,
                                 before.fechaVencimiento, nuevaFechaVencimiento.value, observaciones.GetOr(""));
        var replaced := before.(numeroMatafuego := nuevoNumeroMatafuego,
                                fechaVencimiento := nuevaFechaVencimiento.value,
                                historialReemplazos := before.historialReemplazos + [entry]);
        matafuegos == old(matafuegos)[i := replaced] && r == Success(View(replaced, today))
      ensures Ids(matafuegos) == Ids(old(matafuegos))
    {
      if nuevoNumeroMatafuego == "" || nuevaFechaVencimiento.None? {
        return Failure(InvalidInput);
      }
      var index := IndexOf(Ids(matafuegos), id);
      if index == -1 {
        return Failure(NotFound);
      }
      var before := matafuegos[index];
      var entry := Replacement(today, before.numeroMatafuego, nuevoNumeroMatafuego,
                               before.fechaVencimiento, nuevaFechaVencimiento.value, observaciones.GetOr(""));
      var replaced := before.(numeroMatafuego := nuevoNumeroMatafuego,
                              fechaVencimiento := nuevaFechaVencimiento.value,
                              historialReemplazos := before.historialReemplazos + [entry]);
      IdsUpdate(matafuegos, index, replaced);
      matafuegos := matafuegos[index := replaced];
      r := Success(View(replaced, today));
    }

    /** Removes the extinguisher `id`; the others keep their order. An absent id changes nothing. */
    method Delete(id: int) returns (r: Outcome)
      modifies this
      ensures id !in Ids(old(matafuegos)) ==> r == Fail(NotFound) && matafuegos == old(matafuegos)
      ensures id in Ids(old(matafuegos)) ==>
        r == Pass && matafuegos == RemoveAt(old(matafuegos), IndexOf(Ids(old(matafuegos)), id))
      ensures old(Valid()) ==> Valid() && id !in Ids(matafuegos)
    {
      var index := IndexOf(Ids(matafuegos), id);
      if index == -1 {
        return Fail(NotFound);
      }
      IdsRemoveAt(matafuegos, index);
      if Valid() {
        DistinctRemoveAt(Ids(matafuegos), index);
      }
      matafuegos := RemoveAt(matafuegos, index);
      r := Pass;
    }
  }
}
