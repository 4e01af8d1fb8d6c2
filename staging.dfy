/** The per-activity staging context: for each type name, the records
    registered under it in document order; the last one is the "current"
    record of that type, the one `get_model` returns. */
module Staging {
  import opened Common
  import opened Records

  type Models = map<Kind, seq<Record>>

  /** What a handler leaves behind: whether it raised, and the staged
      records at that point. */
  datatype Step = Step(status: Status, models: Models)

  /** `get_model_list(kind)`: empty when nothing was registered. */
  function ModelList(m: Models, kind: Kind): seq<Record>
  {
    if kind in m then m[kind] else []
  }

  /** `get_model(kind)`: the most recently registered record, if any. */
  function Current(m: Models, kind: Kind): (r: Option<Record>)
    ensures r.Some? <==> |ModelList(m, kind)| > 0
    ensures r.Some? ==> r.value == ModelList(m, kind)[|ModelList(m, kind)| - 1]
  {
    var l := ModelList(m, kind);
    if |l| == 0 then None else Some(l[|l| - 1])
  }

  /** `register_model(kind, r)`: appended, and now current. */
  function Append(m: Models, kind: Kind, r: Record): (m': Models)
    ensures ModelList(m', kind) == ModelList(m, kind) + [r]
    ensures Current(m', kind) == Some(r)
    ensures forall k :: k != kind ==> ModelList(m', k) == ModelList(m, k)
  {
    m[kind := ModelList(m, kind) + [r]]
  }

  /** `pop_model(kind)` on a non-empty list: the current record removed. */
  function DropLast(m: Models, kind: Kind): (m': Models)
    requires |ModelList(m, kind)| > 0
    ensures ModelList(m', kind) == ModelList(m, kind)[..|ModelList(m, kind)| - 1]
    ensures forall k :: k != kind ==> ModelList(m', k) == ModelList(m, k)
  {
    var l := ModelList(m, kind);
    m[kind := l[..|l| - 1]]
  }

  /** The current record of `kind` replaced by `r`: what changing a field of
      the object `get_model(kind)` returned does to the staged records. */
  function SetLast(m: Models, kind: Kind, r: Record): (m': Models)
    requires |ModelList(m, kind)| > 0
    ensures |ModelList(m', kind)| == |ModelList(m, kind)|
    ensures ModelList(m', kind)[..|ModelList(m, kind)| - 1] == ModelList(m, kind)[..|ModelList(m, kind)| - 1]
    ensures Current(m', kind) == Some(r)
    ensures forall k :: k != kind ==> ModelList(m', k) == ModelList(m, k)
  {
    var l := ModelList(m, kind);
    m[kind := l[..|l| - 1] + [r]]
  }

  /** Every record is filed under its own register name. */
  ghost predicate Filed(m: Models)
  {
    forall kind, i | kind in m && 0 <= i < |m[kind]| :: RegisterName(m[kind][i]) == kind
  }

  lemma FiledAppend(m: Models, kind: Kind, r: Record)
    requires Filed(m) && RegisterName(r) == kind
    ensures Filed(Append(m, kind, r))
  {
  }

  lemma FiledSetLast(m: Models, kind: Kind, r: Record)
    requires Filed(m) && RegisterName(r) == kind && |ModelList(m, kind)| > 0
    ensures Filed(SetLast(m, kind, r))
  {
    var m' := SetLast(m, kind, r);
    forall k, i | k in m' && 0 <= i < |m'[k]| ensures RegisterName(m'[k][i]) == k {
      if k == kind && i < |m'[k]| - 1 {
        assert m'[k][i] == m[k][i];
      }
    }
  }

  lemma FiledDropLast(m: Models, kind: Kind)
    requires Filed(m) && |ModelList(m, kind)| > 0
    ensures Filed(DropLast(m, kind))
  {
    var m' := DropLast(m, kind);
    forall k, i | k in m' && 0 <= i < |m'[k]| ensures RegisterName(m'[k][i]) == k {
      if k == kind {
        assert m'[k][i] == m[k][i];
      }
    }
  }

  /** In a filed context the current record of a type has that type. */
  lemma FiledCurrent(m: Models, kind: Kind)
    requires Filed(m) && Current(m, kind).Some?
    ensures RegisterName(Current(m, kind).value) == kind
  {
  }

  /** In a filed context the current record of a class type is an
      instance of that class. */
  lemma CurrentHasClass(m: Models, kind: Kind)
    requires Filed(m) && Current(m, kind).Some? && kind.Of?
    ensures ClassOf(Current(m, kind).value) == kind.cls
  {
    FiledCurrent(m, kind);
  }

  /** `m'` is `m` with `r` appended to the records of `kind`, and nothing
      else changed. */
  ghost predicate AppendedOne(m: Models, m': Models, kind: Kind, r: Record)
  {
    && ModelList(m', kind) == ModelList(m, kind) + [r]
    && forall k :: k != kind ==> ModelList(m', k) == ModelList(m, k)
  }

  /** `m'` is `m` with the current record of `kind` replaced by `r`: the
      same number of records, the earlier ones kept, nothing else changed. */
  ghost predicate ReplacedCurrent(m: Models, m': Models, kind: Kind, r: Record)
  {
    && ReplacedLast(ModelList(m, kind), ModelList(m', kind), r)
    && forall k :: k != kind ==> ModelList(m', k) == ModelList(m, k)
  }

  /** `l'` is the non-empty `l` with its last record replaced by `r`. */
  ghost predicate ReplacedLast(l: seq<Record>, l': seq<Record>, r: Record)
  {
    && |l| > 0
    && |l'| == |l|
    && l'[..|l| - 1] == l[..|l| - 1]
    && l'[|l| - 1] == r
  }

  /** A replacement of the current record of one type survives an append
      to another type. */
  lemma ReplacedThenAppended(m: Models, m': Models, m'': Models, kind: Kind, r: Record, kind': Kind, r': Record)
    requires ReplacedCurrent(m, m', kind, r) && AppendedOne(m', m'', kind', r') && kind != kind'
    ensures ReplacedLast(ModelList(m, kind), ModelList(m'', kind), r)
    ensures ModelList(m'', kind') == ModelList(m, kind') + [r']
    ensures forall k :: k != kind && k != kind' ==> ModelList(m'', k) == ModelList(m, k)
  {
  }

  /** `register_model(ClassOf(r), r)`: staged under its own name. */
  function Stage(m: Models, r: Record): (m': Models)
    ensures Filed(m) ==> Filed(m')
    ensures AppendedOne(m, m', RegisterName(r), r)
  {
    FiledAppendWhen(m, r);
    Append(m, RegisterName(r), r)
  }

  lemma FiledAppendWhen(m: Models, r: Record)
    ensures Filed(m) ==> Filed(Append(m, RegisterName(r), r))
  {
    if Filed(m) {
      FiledAppend(m, RegisterName(r), r);
    }
  }

  /** A field assignment on the current record of the type of `r`. */
  function Replace(m: Models, r: Record): (m': Models)
    requires |ModelList(m, RegisterName(r))| > 0
    ensures Filed(m) ==> Filed(m')
    ensures ReplacedCurrent(m, m', RegisterName(r), r)
  {
    FiledSetLastWhen(m, r);
    SetLast(m, RegisterName(r), r)
  }

  lemma FiledSetLastWhen(m: Models, r: Record)
    requires |ModelList(m, RegisterName(r))| > 0
    ensures Filed(m) ==> Filed(SetLast(m, RegisterName(r), r))
  {
    if Filed(m) {
      FiledSetLast(m, RegisterName(r), r);
    }
  }

  /** Popping the current record and registering a record under the same
      name replaces the current record in place: the count is unchanged and
      only the last slot differs. */
  lemma PopThenRegister(m: Models, kind: Kind, r: Record)
    requires |ModelList(m, kind)| > 0
    ensures Append(DropLast(m, kind), kind, r) == SetLast(m, kind, r)
    ensures |ModelList(Append(DropLast(m, kind), kind, r), kind)| == |ModelList(m, kind)|
  {
  }

  /** Popping the current record and registering its updated copy replaces
      it in place. */
  lemma PopRegisterReplaces(m: Models, kind: Kind, r: Record)
    requires |ModelList(m, kind)| > 0
    ensures ReplacedCurrent(m, Append(DropLast(m, kind), kind, r), kind, r)
  {
    PopThenRegister(m, kind, r);
  }

  /** `pop_model(kind)` followed by `register_model(kind, r)` on the record
      just popped and updated: the current record replaced in place. */
  function PopRegister(m: Models, r: Record): (m': Models)
    requires |ModelList(m, RegisterName(r))| > 0
    ensures Filed(m) ==> Filed(m')
    ensures ReplacedCurrent(m, m', RegisterName(r), r)
  {
    var kind := RegisterName(r);
    PopRegisterReplaces(m, kind, r);
    PopRegisterFiled(m, r);
    Append(DropLast(m, kind), kind, r)
  }

  lemma PopRegisterFiled(m: Models, r: Record)
    requires |ModelList(m, RegisterName(r))| > 0
    ensures Filed(m) ==> Filed(Append(DropLast(m, RegisterName(r)), RegisterName(r), r))
  {
    if Filed(m) {
      FiledDropLast(m, RegisterName(r));
      FiledAppend(DropLast(m, RegisterName(r)), RegisterName(r), r);
    }
  }

  /** The staging context of the parser, updated in place by the handlers. */
  class StagingContext {
    var models: Models

    ghost predicate Valid()
      reads this
    {
      Filed(models)
    }

    constructor ()
      ensures Valid() && models == map[]
    {
      models := map[];
    }

    function GetModel(kind: Kind): Option<Record>
      reads this
    {
      Current(models, kind)
    }

    function GetModelList(kind: Kind): seq<Record>
      reads this
    {
      ModelList(models, kind)
    }

    method RegisterModel(kind: Kind, r: Record)
      modifies this
      ensures models == Append(old(models), kind, r)
      ensures old(Valid()) && RegisterName(r) == kind ==> Valid()
    {
      models := models[kind := ModelList(models, kind) + [r]];
      if old(Valid()) && RegisterName(r) == kind {
        FiledAppend(old(models), kind, r);
      }
    }

    method PopModel(kind: Kind) returns (r: Option<Record>)
      modifies this
      ensures r == old(GetModel(kind))
      ensures r.None? ==> models == old(models)
      ensures r.Some? ==> models == DropLast(old(models), kind)
      ensures old(Valid()) ==> Valid()
    {
      r := GetModel(kind);
      if r.Some? {
        var l := ModelList(models, kind);
        models := models[kind := l[..|l| - 1]];
        if old(Valid()) {
          FiledDropLast(old(models), kind);
        }
      }
    }

    /** A field assignment on the current record of `kind`. */
    method UpdateCurrent(kind: Kind, r: Record)
      requires |ModelList(models, kind)| > 0
      modifies this
      ensures models == SetLast(old(models), kind, r)
      ensures old(Valid()) && RegisterName(r) == kind ==> Valid()
    {
      var l := ModelList(models, kind);
      models := models[kind := l[..|l| - 1] + [r]];
      if old(Valid()) && RegisterName(r) == kind {
        FiledSetLast(old(models), kind, r);
      }
    }
  }
}
