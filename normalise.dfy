/** The response normaliser the pages share: unwrapping a collection envelope,
    projecting raw records onto the fields a dropdown needs, and reducing a
    foreign key delivered as a populated object to its bare identifier. */
module Normalise {
  import opened Json

  /** `list.map(callback)` where the callback reads a property of its
      argument: the whole call throws (`None`) as soon as it reaches a `null`
      or `undefined` element; otherwise every element is mapped in order. */
  function MapRecords<T>(recs: seq<Json>, f: Json -> T): (r: Option<seq<T>>)
    ensures r.Some? <==> forall i :: 0 <= i < |recs| ==> !Nullish(recs[i])
    ensures r.Some? ==> |r.value| == |recs|
    ensures r.Some? ==> forall i :: 0 <= i < |recs| ==> r.value[i] == f(recs[i])
    decreases |recs|
  {
    if recs == [] then Some([])
    else if Nullish(recs[0]) then None
    else
      match MapRecords(recs[1..], f)
      case None => None
      case Some(rest) => Some([f(recs[0])] + rest)
  }

  // ---------------------------------------------------------------------------
  // Collection envelopes

  /** The list a collection response carries: a top-level array as it is,
      else the body's `data` array, else the array under the collection's own
      name `key` (`departments`, `positions`, `employees`), else no records. */
  function UnwrapCollection(body: Json, key: string): (r: seq<Json>)
    ensures body.JArr? ==> r == body.items
    ensures r != [] ==>
              || (body.JArr? && r == body.items)
              || (Prop(body, "data").JArr? && r == Prop(body, "data").items)
              || (Prop(body, key).JArr? && r == Prop(body, key).items)
  {
    if body.JArr? then body.items
    else if Truthy(body) && Prop(body, "data").JArr? then Prop(body, "data").items
    else if Truthy(body) && Prop(body, key).JArr? then Prop(body, key).items
    else []
  }

  /** Reference reading of the precedence: the items of the first array in a
      list of candidate values, or nothing when none is an array. */
  function FirstArray(candidates: seq<Json>): (r: seq<Json>)
    ensures r != [] ==> exists i :: 0 <= i < |candidates| && candidates[i].JArr? && candidates[i].items == r
    decreases |candidates|
  {
    if candidates == [] then []
    else if candidates[0].JArr? then candidates[0].items
    else FirstArray(candidates[1..])
  }

  /** Unwrapping tries the body, then `data`, then the named key, and falls
      back to the empty list. */
  lemma {:induction false} UnwrapIsFirstArray(body: Json, key: string)
    ensures UnwrapCollection(body, key) == FirstArray([body, Prop(body, "data"), Prop(body, key)])
  {
    var c := [body, Prop(body, "data"), Prop(body, key)];
    if !body.JArr? {
      // a falsy body has no fields, so the `deptData &&` guard never decides
      assert !body.JObj? ==> Prop(body, "data") == JUndefined && Prop(body, key) == JUndefined;
      assert FirstArray(c) == FirstArray([Prop(body, "data"), Prop(body, key)]);
      if !Prop(body, "data").JArr? {
        assert FirstArray([Prop(body, "data"), Prop(body, key)]) == FirstArray([Prop(body, key)]);
        assert [Prop(body, key)][1..] == [];
      }
    }
  }

  /** The three shapes a collection response may take. */
  datatype Envelope = Bare | DataWrapper | Named

  function Wrap(records: seq<Json>, e: Envelope, key: string): Json {
    match e
    case Bare => JArr(records)
    case DataWrapper => JObj(map["data" := JArr(records)])
    case Named => JObj(map[key := JArr(records)])
  }

  /** Each accepted envelope gives back exactly the records it wraps, in order. */
  lemma UnwrapWrap(records: seq<Json>, e: Envelope, key: string)
    ensures UnwrapCollection(Wrap(records, e, key), key) == records
  {
  }

  /** The named key is consulted only when neither the body nor its `data`
      field is an array. */
  lemma UnwrapNamedKeyLast(fields: map<string, Json>, key: string, v: Json)
    requires key != "data" && Field(fields, "data").JArr?
    ensures UnwrapCollection(JObj(fields[key := v]), key) == Field(fields, "data").items
  {
  }

  /** A body of none of the three shapes is read as no records, never as an error. */
  lemma UnwrapUnrecognised(body: Json, key: string)
    requires !body.JArr? && !Prop(body, "data").JArr? && !Prop(body, key).JArr?
    ensures UnwrapCollection(body, key) == []
  {
  }

  // ---------------------------------------------------------------------------
  // Projection onto dropdown options

  datatype DepartmentOption = DepartmentOption(id: Json, name: Json)
  datatype PositionOption = PositionOption(id: Json, title: Json, code: Json)

  /** `rec._id || rec.id` */
  function RecordId(rec: Json): (id: Json)
    ensures Truthy(Prop(rec, "_id")) ==> id == Prop(rec, "_id")
    ensures !Truthy(Prop(rec, "_id")) ==> id == Prop(rec, "id")
  {
    Or(Prop(rec, "_id"), Prop(rec, "id"))
  }

  /** `rec.k || ''` */
  function TextField(rec: Json, k: string): (v: Json)
    ensures Truthy(Prop(rec, k)) ==> v == Prop(rec, k)
    ensures !Truthy(Prop(rec, k)) ==> v == JStr("")
  {
    Or(Prop(rec, k), JStr(""))
  }

  function ProjectDepartment(rec: Json): (d: DepartmentOption)
    ensures d.id == RecordId(rec)
    ensures d.name == TextField(rec, "name")
  {
    DepartmentOption(RecordId(rec), TextField(rec, "name"))
  }

  function ProjectPosition(rec: Json): (p: PositionOption)
    ensures p.id == RecordId(rec)
    ensures p.title == TextField(rec, "title") && p.code == TextField(rec, "code")
  {
    PositionOption(RecordId(rec), TextField(rec, "title"), TextField(rec, "code"))
  }

  /** The position options of a positions response: unwrapped with the key
      `positions`, then projected one by one, in order; `None` when the
      projection throws on a `null` entry. */
  function ProjectPositions(body: Json): (r: Option<seq<PositionOption>>)
    ensures var items := UnwrapCollection(body, "positions");
      && (r.Some? <==> forall i :: 0 <= i < |items| ==> !Nullish(items[i]))
      && (r.Some? ==> |r.value| == |items|)
      && (r.Some? ==> forall i :: 0 <= i < |items| ==>
            && (Truthy(Prop(items[i], "_id")) ==> r.value[i].id == Prop(items[i], "_id"))
            && (!Truthy(Prop(items[i], "_id")) ==> r.value[i].id == Prop(items[i], "id"))
            && (Truthy(Prop(items[i], "title")) ==> r.value[i].title == Prop(items[i], "title"))
            && (!Truthy(Prop(items[i], "title")) ==> r.value[i].title == JStr(""))
            && (Truthy(Prop(items[i], "code")) ==> r.value[i].code == Prop(items[i], "code"))
            && (!Truthy(Prop(items[i], "code")) ==> r.value[i].code == JStr("")))
  {
    MapRecords(UnwrapCollection(body, "positions"), ProjectPosition)
  }

  // ---------------------------------------------------------------------------
  // Foreign keys

  /** `typeof v === 'object' && v?._id`: the key arrived as a populated object. */
  predicate IsPopulated(v: Json) {
    IsObjectType(v) && Truthy(Prop(v, "_id"))
  }

  /** A populated foreign key becomes its `_id`; any other value is kept as received. */
  function UnwrapForeignKey(v: Json): (r: Json)
    ensures IsPopulated(v) ==> v.JObj? && "_id" in v.fields && r == v.fields["_id"] && Truthy(r)
    ensures !IsPopulated(v) ==> r == v
  {
    if IsPopulated(v) then Prop(v, "_id") else v
  }

  /** Unwrapping twice equals unwrapping once exactly when the key is not a
      populated object whose own `_id` is again a populated object. */
  lemma UnwrapForeignKeyIdempotent(v: Json)
    ensures UnwrapForeignKey(UnwrapForeignKey(v)) == UnwrapForeignKey(v)
            <==> !(IsPopulated(v) && IsPopulated(Prop(v, "_id")))
  {
  }

  /** `{ _id: "a1" }` unwraps to `"a1"`, while `"a1"` and `undefined` stay as
      they are; an `_id` that is itself populated is unwrapped one level only. */
  lemma UnwrapForeignKeyExamples()
    ensures UnwrapForeignKey(JObj(map["_id" := JStr("a1")])) == JStr("a1")
    ensures UnwrapForeignKey(JStr("a1")) == JStr("a1")
    ensures UnwrapForeignKey(JUndefined) == JUndefined
    ensures UnwrapForeignKey(JObj(map["_id" := JObj(map["_id" := JStr("a1")])]))
            == JObj(map["_id" := JStr("a1")])
  {
  }

  /** `{ ...dept, headPositionId: <unwrapped> }`: the department with only its
      `headPositionId` normalised; the key is always present afterwards. */
  function NormaliseDepartment(dept: Json): (r: map<string, Json>)
    ensures "headPositionId" in r && r["headPositionId"] == UnwrapForeignKey(Prop(dept, "headPositionId"))
    ensures forall k :: k != "headPositionId" ==> (k in r <==> k in Spread(dept))
    ensures forall k :: k in r && k != "headPositionId" ==> r[k] == Spread(dept)[k]
  {
    Spread(dept)["headPositionId" := UnwrapForeignKey(Prop(dept, "headPositionId"))]
  }

  /** Normalising a normalised department changes nothing, unless its head
      position was nested two populated levels deep. */
  lemma NormaliseDepartmentIdempotent(dept: Json)
    requires var h := Prop(dept, "headPositionId"); !(IsPopulated(h) && IsPopulated(Prop(h, "_id")))
    ensures NormaliseDepartment(JObj(NormaliseDepartment(dept))) == NormaliseDepartment(dept)
  {
  }

  /** A departments body is accepted only as a top-level array (no envelope
      is unwrapped); each department is normalised, in order. */
  function NormaliseDepartments(body: Json): (r: Option<seq<map<string, Json>>>)
    ensures !body.JArr? ==> r == Some([])
    ensures body.JArr? ==> (r.Some? <==> forall i :: 0 <= i < |body.items| ==> !Nullish(body.items[i]))
    ensures body.JArr? && r.Some? ==> |r.value| == |body.items|
    ensures body.JArr? && r.Some? ==> forall i :: 0 <= i < |body.items| ==>
              && r.value[i].Keys == Spread(body.items[i]).Keys + {"headPositionId"}
              && r.value[i]["headPositionId"] == UnwrapForeignKey(Prop(body.items[i], "headPositionId"))
              && forall k :: k in Spread(body.items[i]) && k != "headPositionId" ==>
                   r.value[i][k] == Spread(body.items[i])[k]
  {
    if body.JArr? then MapRecords(body.items, NormaliseDepartment) else Some([])
  }

  /** Unlike `UnwrapCollection`, a `{ data: [...] }` body yields no departments. */
  lemma NormaliseDepartmentsIgnoresEnvelope(records: seq<Json>)
    ensures NormaliseDepartments(Wrap(records, DataWrapper, "departments")) == Some([])
    ensures NormaliseDepartments(Wrap(records, Named, "departments")) == Some([])
  {
  }
}
