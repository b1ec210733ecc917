/** The Prototype script (prototype.py): a registry of template objects kept
    in a dictionary, from which deep copies are made and then given
    attribute overrides. Templates have the shape of the script's
    `DataMatrix`: value-typed attributes plus a two-dimensional integer
    array as payload. */
module Prototypes {
  import opened Results

  /** The value-typed attribute values a template carries (names, version
      strings, metadata dictionaries, ...). They are immutable, so a deep
      copy may share them. */
  datatype Value =
    | NoneValue
    | Bool(b: bool)
    | Int(i: int)
    | Str(s: string)
    | Dict(entries: map<string, Value>)

  /** Python's truth value of an attribute value. */
  predicate Truthy(v: Value)
  {
    match v
    case NoneValue => false
    case Bool(b) => b
    case Int(i) => i != 0
    case Str(s) => s != ""
    case Dict(d) => d != map[]
  }

  /** The expression `metadata or {}` in `DataMatrix.__init__`: a false
      value (the default `None`, an empty dictionary, ...) becomes a new
      empty dictionary; any true value is kept. */
  function MetadataOrEmpty(metadata: Value): (r: Value)
    ensures Truthy(metadata) ==> r == metadata
    ensures !Truthy(metadata) ==> r == Dict(map[])
    ensures Truthy(r) <==> Truthy(metadata)
  {
    if Truthy(metadata) then metadata else Dict(map[])
  }

  /** `__dict__.update(attrs)`: every supplied attribute takes the supplied
      value, whether or not it was there before; every other attribute
      keeps its value. */
  function Update(d: map<string, Value>, attrs: map<string, Value>): (r: map<string, Value>)
    ensures r.Keys == d.Keys + attrs.Keys
    ensures forall k :: k in attrs ==> r[k] == attrs[k]
    ensures forall k :: k in d && k !in attrs ==> r[k] == d[k]
  {
    d + attrs
  }

  /** The contents of a two-dimensional array, row by row. */
  function Cells(a: array2<int>): (s: seq<seq<int>>)
    reads a
    ensures |s| == a.Length0
    ensures forall i :: 0 <= i < a.Length0 ==> |s[i]| == a.Length1
    ensures forall i, j :: 0 <= i < a.Length0 && 0 <= j < a.Length1 ==> s[i][j] == a[i, j]
  {
    seq(a.Length0, i requires 0 <= i < a.Length0 reads a =>
      seq(a.Length1, j requires 0 <= j < a.Length1 reads a => a[i, j]))
  }

  /** An object shaped like `DataMatrix`. */
  class DataMatrix {
    /** The value-typed entries of the object's `__dict__`. */
    var attrs: map<string, Value>
    /** The array payload, the attribute `data`. */
    var data: array2<int>

    /** `DataMatrix.__init__`: stores the name, the given array itself (not
        a copy) and the defaulted metadata. */
    constructor (name: string, data: array2<int>, metadata: Value)
      ensures this.data == data
      ensures attrs == map["name" := Str(name), "metadata" := MetadataOrEmpty(metadata)]
    {
      this.data := data;
      attrs := map["name" := Str(name), "metadata" := MetadataOrEmpty(metadata)];
    }

    /** How a deep copy rebuilds an object: from its parts, without
        running `__init__`. */
    constructor Reconstruct(attrs: map<string, Value>, data: array2<int>)
      ensures this.attrs == attrs && this.data == data
    {
      this.attrs := attrs;
      this.data := data;
    }
  }

  /** The deep copy of an array payload: a new array of the same shape and
      contents. */
  method CopyArray(a: array2<int>) returns (b: array2<int>)
    ensures fresh(b)
    ensures b.Length0 == a.Length0 && b.Length1 == a.Length1
    ensures Cells(b) == Cells(a)
  {
    b := new int[a.Length0, a.Length1];
    var i := 0;
    while i < a.Length0
      invariant 0 <= i <= a.Length0
      invariant forall p, q :: 0 <= p < i && 0 <= q < a.Length1 ==> b[p, q] == a[p, q]
    {
      var j := 0;
      while j < a.Length1
        invariant 0 <= j <= a.Length1
        invariant forall p, q :: 0 <= p < i && 0 <= q < a.Length1 ==> b[p, q] == a[p, q]
        invariant forall q :: 0 <= q < j ==> b[i, q] == a[i, q]
      {
        b[i, j] := a[i, j];
        j := j + 1;
      }
      i := i + 1;
    }
    CellsEqual(a, b);
  }

  /** Arrays of one shape with equal elements have equal contents. */
  lemma CellsEqual(a: array2<int>, b: array2<int>)
    requires a.Length0 == b.Length0 && a.Length1 == b.Length1
    requires forall p, q :: 0 <= p < a.Length0 && 0 <= q < a.Length1 ==> b[p, q] == a[p, q]
    ensures Cells(a) == Cells(b)
  {
    var ca, cb := Cells(a), Cells(b);
    forall i | 0 <= i < a.Length0
      ensures ca[i] == cb[i]
    {
      assert forall j :: 0 <= j < a.Length1 ==> ca[i][j] == cb[i][j];
    }
  }

  /** `copy.deepcopy` of a template: a new object with a new payload array;
      the immutable attribute values are shared. */
  method DeepCopy(t: DataMatrix) returns (c: DataMatrix)
    ensures fresh(c) && fresh(c.data)
    ensures c.attrs == t.attrs
    ensures c.data.Length0 == t.data.Length0 && c.data.Length1 == t.data.Length1
    ensures Cells(c.data) == Cells(t.data)
  {
    var data := CopyArray(t.data);
    c := new DataMatrix.Reconstruct(t.attrs, data);
  }

  /** The exceptions the registry lets escape. */
  datatype PrototypeError = KeyError(key: string) | AttributeError(message: string)

  /** What Python says when `clone` reaches `None.__dict__`. */
  const NoDictMessage: string := "'NoneType' object has no attribute '__dict__'"

  /** The registry `Prototype`: a dictionary from names to templates. */
  class Prototype {
    /** `_objects`; the registry holds the templates themselves, not copies. */
    var objects: map<string, DataMatrix>

    /** `Prototype.__init__`: a new registry holds no entries. */
    constructor ()
      ensures objects == map[]
    {
      objects := map[];
    }

    /** `register_object`: `name` now maps to `obj`, replacing any earlier
        entry; every other entry is unchanged. */
    method RegisterObject(name: string, obj: DataMatrix)
      modifies this
      ensures objects == old(objects)[name := obj]
      ensures objects.Keys == old(objects).Keys + {name}
      ensures forall k :: k in old(objects) && k != name ==> objects[k] == old(objects)[k]
    {
      objects := objects[name := obj];
    }

    /** `unregister_object`: `del` of the entry for `name`. When there is none
        the deletion raises KeyError and the table is left as it was. */
    method UnregisterObject(name: string) returns (r: Outcome<PrototypeError>)
      modifies this
      ensures name in old(objects) ==> r == Pass && objects == old(objects) - {name}
      ensures name !in old(objects) ==> r == Fail(KeyError(name)) && objects == old(objects)
      ensures forall k :: k in old(objects) && k != name ==> k in objects && objects[k] == old(objects)[k]
      ensures name !in objects
    {
      if name !in objects {
        r := Fail(KeyError(name));
        return;
      }
      objects := objects - {name};
      r := Pass;
    }

    /** `clone`: deep-copy the template registered under `name`, then apply
        the keyword overrides to the copy's attributes. The registry and its
        templates are not modified (the method modifies nothing that already
        exists). For an unregistered name `get` yields `None`, its deep copy
        is `None`, and reading `__dict__` raises AttributeError, not KeyError. */
    method Clone(name: string, overrides: map<string, Value>) returns (r: Result<DataMatrix, PrototypeError>)
      ensures objects == old(objects)
      ensures name !in objects ==> r == Failure(AttributeError(NoDictMessage))
      ensures name in objects ==>
                && r.Success?
                && fresh(r.value) && fresh(r.value.data)
                && r.value.attrs == Update(objects[name].attrs, overrides)
                && r.value.data.Length0 == objects[name].data.Length0
                && r.value.data.Length1 == objects[name].data.Length1
                && Cells(r.value.data) == Cells(objects[name].data)
    {
      if name !in objects {
        r := Failure(AttributeError(NoDictMessage));
        return;
      }
      var copy := DeepCopy(objects[name]);
      copy.attrs := Update(copy.attrs, overrides);
      r := Success(copy);
    }
  }

  /** `client_prototype`: a throw-away registry that clones `obj` once; the
      result is a new copy of `obj` with the overrides applied. */
  method ClientPrototype(name: string, obj: DataMatrix, overrides: map<string, Value>) returns (r: DataMatrix)
    ensures fresh(r) && fresh(r.data)
    ensures r.attrs == Update(obj.attrs, overrides)
    ensures r.data.Length0 == obj.data.Length0 && r.data.Length1 == obj.data.Length1
    ensures Cells(r.data) == Cells(obj.data)
  {
    var prototype := new Prototype();
    prototype.RegisterObject(name, obj);
    var cloned := prototype.Clone(name, overrides);
    r := cloned.value;
  }

  /** Independence of clones, as the script's demonstration checks it: two
      clones of one registered template, one of which is then written to.
      The written clone differs from the template in that cell only; the
      other clone still equals the template; and the template itself is
      untouched, since nothing that existed before the call is modified. */
  method CloneIndependence(template: DataMatrix, i: nat, j: nat, v: int)
    returns (clone1: DataMatrix, clone2: DataMatrix)
    requires i < template.data.Length0 && j < template.data.Length1
    ensures clone1.data != template.data && clone2.data != template.data && clone1.data != clone2.data
    ensures clone1.data.Length0 == template.data.Length0 && clone1.data.Length1 == template.data.Length1
    ensures clone1.data[i, j] == v
    ensures forall p, q :: 0 <= p < template.data.Length0 && 0 <= q < template.data.Length1 && (p != i || q != j)
              ==> clone1.data[p, q] == template.data[p, q]
    ensures Cells(clone2.data) == Cells(template.data)
  {
    var registry := new Prototype();
    registry.RegisterObject("base_matrix", template);
    var r1 := registry.Clone("base_matrix", map[]);
    var r2 := registry.Clone("base_matrix", map[]);
    clone1, clone2 := r1.value, r2.value;
    clone1.data[i, j] := v;
  }
}
