/** The licence collection: create, update (with rename), renew and delete over a sequence
    of licences keyed by their `legajo` (personnel file number). */
module Licencias {
  import opened Expiry
  import opened Collections

  /** One entry of a licence's renewal history. */
  datatype Renewal = Renewal(
    fechaRenovacion: Date,
    fechaVencimientoAnterior: Date,
    fechaVencimientoNueva: Date,
    observaciones: string)

  /** A stored licence. Its status is never stored: it is computed when a licence is answered. */
  datatype License = License(
    legajo: string,
    nombre: string,
    apellido: string,
    dni: string,
    fechaVencimiento: Date,
    historialRenovaciones: seq<Renewal>)

  /** The fields of a create or update request; a missing text field is "", a missing date None. */
  datatype LicenseForm = LicenseForm(
    legajo: string,
    nombre: string,
    apellido: string,
    dni: string,
    fechaVencimiento: Option<Date>)

  /** A licence as a handler answers it: the stored record and its status on that day. */
  datatype LicenseView = LicenseView(licencia: License, estado: Status)

  /** Every field of the form is present and non-empty: the guard of the create and update
      handlers, whose contracts state the rejection. */
  predicate Complete(f: LicenseForm) {
    f.legajo != "" && f.nombre != "" && f.apellido != "" && f.dni != "" && f.fechaVencimiento.Some?
  }

  /** The keys of `s`, in order. */
  function Legajos(s: seq<License>): (ks: seq<string>)
    ensures |ks| == |s|
    ensures forall i :: 0 <= i < |s| ==> ks[i] == s[i].legajo
  {
    if s == [] then [] else [s[0].legajo] + Legajos(s[1..])
  }

  lemma LegajosUpdate(s: seq<License>, i: int, l: License)
    requires 0 <= i < |s|
    ensures Legajos(s[i := l]) == Legajos(s)[i := l.legajo]
  {
    var a, b := Legajos(s[i := l]), Legajos(s)[i := l.legajo];
    assert |a| == |b|;
    forall j | 0 <= j < |a| ensures a[j] == b[j] {}
  }

  lemma LegajosRemoveAt(s: seq<License>, i: int)
    requires 0 <= i < |s|
    ensures Legajos(RemoveAt(s, i)) == RemoveAt(Legajos(s), i)
  {
    var t := RemoveAt(s, i);
    var a, b := Legajos(t), RemoveAt(Legajos(s), i);
    forall j | 0 <= j < |a| ensures a[j] == b[j] {
      if j < i {
        assert t[j] == s[j];
      } else {
        assert t[j] == s[j + 1];
      }
    }
  }

  function View(l: License, today: Date): LicenseView {
    LicenseView(l, StatusOf(l.fechaVencimiento, today))
  }

  /** The licences, as the handlers load and save them. */
  class LicenseStore {
    var licencias: seq<License>

    /** No two licences share a `legajo`. */
    ghost predicate Valid()
      reads this
    {
      Distinct(Legajos(licencias))
    }

    constructor (initial: seq<License>)
      ensures licencias == initial
    {
      licencias := initial;
    }

    /** Adds a licence with an empty renewal history. Missing fields are reported before a
        duplicate key; on failure nothing changes. */
    method Create(form: LicenseForm, today: Date) returns (r: Result<LicenseView>)
      modifies this
      ensures !Complete(form) ==> r == Failure(InvalidInput) && licencias == old(licencias)
      ensures Complete(form) && form.legajo in Legajos(old(licencias)) ==>
        r == Failure(DuplicateKey) && licencias == old(licencias)
      ensures Complete(form) && form.legajo !in Legajos(old(licencias)) ==>
        var nueva := License(form.legajo, form.nombre, form.apellido, form.dni, form.fechaVencimiento.value, []);
        licencias == old(licencias) + [nueva] && r == Success(View(nueva, today))
      ensures old(Valid()) ==> Valid()
    {
      if !Complete(form) {
        return Failure(InvalidInput);
      }
      if form.legajo in Legajos(licencias) {
        return Failure(DuplicateKey);
      }
      var nueva := License(form.legajo, form.nombre, form.apellido, form.dni, form.fechaVencimiento.value, []);
      licencias := licencias + [nueva];
      r := Success(View(nueva, today));
      assert Legajos(licencias) == old(Legajos(licencias)) + [form.legajo];
      if old(Valid()) {
        DistinctAppend(old(Legajos(licencias)), form.legajo);
      }
    }

    /** Replaces every field of the licence keyed `legajo`, possibly renaming it, and keeps its
        renewal history. Errors come in the order: missing field, absent key, key taken by
        another licence; on failure nothing changes. */
    method Update(legajo: string, form: LicenseForm, today: Date) returns (r: Result<LicenseView>)
      modifies this
      ensures !Complete(form) ==> r == Failure(InvalidInput) && licencias == old(licencias)
      ensures Complete(form) && legajo !in Legajos(old(licencias)) ==>
        r == Failure(NotFound) && licencias == old(licencias)
      ensures Complete(form) && legajo in Legajos(old(licencias)) &&
              form.legajo != legajo && form.legajo in Legajos(old(licencias)) ==>
        r == Failure(DuplicateKey) && licencias == old(licencias)
      ensures Complete(form) && legajo in Legajos(old(licencias)) &&
              (form.legajo == legajo || form.legajo !in Legajos(old(licencias))) ==>
        var i := IndexOf(Legajos(old(licencias)), legajo);
        var updated := License(form.legajo, form.nombre, form.apellido, form.dni,
                               form.fechaVencimiento.value, old(licencias)[i].historialRenovaciones);
        licencias == old(licencias)[i := updated] && r == Success(View(updated, today))
      ensures old(Valid()) ==> Valid()
    {
      if !Complete(form) {
        return Failure(InvalidInput);
      }
      var index := IndexOf(Legajos(licencias), legajo);
      if index == -1 {
        return Failure(NotFound);
      }
      if form.legajo != legajo && form.legajo in Legajos(licencias) {
        return Failure(DuplicateKey);
      }
      var historial := licencias[index].historialRenovaciones;
      var updated := License(form.legajo, form.nombre, form.apellido, form.dni, form.fechaVencimiento.value, historial);
      licencias := licencias[index := updated];
      r := Success(View(updated, today));
      LegajosUpdate(old(licencias), index, updated);
      if old(Valid()) {
        DistinctUpdate(Legajos(old(licencias)), index, form.legajo);
      }
    }

    /** Renews the licence keyed `legajo`: appends one history entry recording the previous and
        the new expiry date, then moves the expiry date. A missing new date is reported before an
        absent key; on failure nothing changes. */
    method Renew(legajo: string, nuevaFechaVencimiento: Option<Date>, observaciones: Option<string>, today: Date)
      returns (r: Result<LicenseView>)
      modifies this
      ensures nuevaFechaVencimiento.None? ==> r == Failure(InvalidInput) && licencias == old(licencias)
      ensures nuevaFechaVencimiento.Some? && legajo !in Legajos(old(licencias)) ==>
        r == Failure(NotFound) && licencias == old(licencias)
      ensures nuevaFechaVencimiento.Some? && legajo in Legajos(old(licencias)) ==>
        var i := IndexOf(Legajos(old(licencias)), legajo);
        var before := old(licencias)[i];
        var entry := Renewal(today, before.fechaVencimiento, nuevaFechaVencimiento.value, observaciones.GetOr(""));
        var renewed := before.(fechaVencimiento := nuevaFechaVencimiento.value,
                               historialRenovaciones := before.historialRenovaciones + [entry]);
        licencias == old(licencias)[i := renewed] && r == Success(View(renewed, today))
      ensures old(Valid()) ==> Valid()
    {
      if nuevaFechaVencimiento.None? {
        return Failure(InvalidInput);
      }
      var index := IndexOf(Legajos(licencias), legajo);
      if index == -1 {
        return Failure(NotFound);
      }
      var before := licencias[index];
      var entry := Renewal(today, before.fechaVencimiento, nuevaFechaVencimiento.value, observaciones.GetOr(""));
      var renewed := before.(fechaVencimiento := nuevaFechaVencimiento.value,
                             historialRenovaciones := before.historialRenovaciones + [entry]);
      licencias := licencias[index := renewed];
      r := Success(View(renewed, today));
      LegajosUpdate(old(licencias), index, renewed);
      assert Legajos(old(licencias))[index := legajo] == Legajos(old(licencias));
    }

    /** Removes the licence keyed `legajo`; the others keep their order. An absent key changes
        nothing. */
    method Delete(legajo: string) returns (r: Outcome)
      modifies this
      ensures legajo !in Legajos(old(licencias)) ==> r == Fail(NotFound) && licencias == old(licencias)
      ensures legajo in Legajos(old(licencias)) ==>
        r == Pass && licencias == RemoveAt(old(licencias), IndexOf(Legajos(old(licencias)), legajo))
      ensures old(Valid()) ==> Valid() && legajo !in Legajos(licencias)
    {
      var index := IndexOf(Legajos(licencias), legajo);
      if index == -1 {
        return Fail(NotFound);
      }
      LegajosRemoveAt(licencias, index);
      if Valid() {
        DistinctRemoveAt(Legajos(licencias), index);
      }
      licencias := RemoveAt(licencias, index);
      r := Pass;
    }
  }
}
