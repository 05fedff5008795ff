/** Plain JavaScript objects with string values, as the routes and the form see them.
    An object is the ordered list of its own properties; for keys that are not array
    indices, the order is the insertion order that Object.keys and Object.values report. */
module Records {

  datatype Option<+T> = None | Some(value: T)

  /** One own property of an object. */
  datatype Field = Field(key: string, value: string)

  type Object = seq<Field>

  /** JavaScript objects never hold the same key twice. */
  predicate DistinctKeys(o: Object)
  {
    forall i, j :: 0 <= i < j < |o| ==> o[i].key != o[j].key
  }

  predicate HasKey(o: Object, k: string)
  {
    exists i :: 0 <= i < |o| && o[i].key == k
  }

  /** Position of the property named k, if the object has one. */
  function IndexOf(o: Object, k: string): (r: Option<nat>)
    ensures r.Some? ==> r.value < |o| && o[r.value].key == k
    ensures r.Some? ==> forall j :: 0 <= j < r.value ==> o[j].key != k
    ensures r.None? ==> forall j :: 0 <= j < |o| ==> o[j].key != k
  {
    if o == [] then None
    else if o[0].key == k then Some(0)
    else match IndexOf(o[1..], k)
      case None => None
      case Some(i) => Some(i + 1)
  }

  /** Property read o[k]; None stands for undefined. */
  function Get(o: Object, k: string): Option<string>
  {
    match IndexOf(o, k)
    case None => None
    case Some(i) => Some(o[i].value)
  }

  /** Property write o[k] = v, and equally the spread { ...o, [k]: v }: an existing
      property keeps its place and takes the new value, a new one goes at the end (as
      JavaScript does for keys that are not array indices). */
  function Assign(o: Object, k: string, v: string): Object
  {
    match IndexOf(o, k)
    case Some(i) => o[i := Field(k, v)]
    case None => o + [Field(k, v)]
  }

  /** What a property write promises: the key now reads v, every other key reads what
      it read before, no property moves, and keys stay distinct. */
  lemma AssignSemantics(o: Object, k: string, v: string)
    requires DistinctKeys(o)
    ensures var r := Assign(o, k, v);
      && DistinctKeys(r)
      && Get(r, k) == Some(v)
      && (forall k' :: k' != k ==> Get(r, k') == Get(o, k'))
      && (HasKey(o, k) ==> |r| == |o|)
      && (!HasKey(o, k) ==> |r| == |o| + 1 && r[|o|] == Field(k, v))
      && (forall i :: 0 <= i < |o| ==> r[i].key == o[i].key)
      && (forall i :: 0 <= i < |o| && o[i].key != k ==> r[i] == o[i])
  {
    var r := Assign(o, k, v);
    match IndexOf(o, k)
    case Some(i) =>
      assert r == o[i := Field(k, v)];
      assert IndexOf(r, k) == Some(i) by {
        IndexOfUnique(r, k, i);
      }
      forall k' | k' != k ensures Get(r, k') == Get(o, k') {
        match IndexOf(o, k')
        case None =>
          assert IndexOf(r, k') == None by { NotFound(r, k'); }
        case Some(j) =>
          IndexOfUnique(r, k', j);
      }
    case None =>
      assert r == o + [Field(k, v)];
      assert IndexOf(r, k) == Some(|o|) by { IndexOfUnique(r, k, |o|); }
      forall k' | k' != k ensures Get(r, k') == Get(o, k') {
        match IndexOf(o, k')
        case None =>
          assert IndexOf(r, k') == None by { NotFound(r, k'); }
        case Some(j) =>
          IndexOfUnique(r, k', j);
      }
  }

  lemma IndexOfUnique(o: Object, k: string, i: nat)
    requires i < |o| && o[i].key == k
    requires forall j :: 0 <= j < i ==> o[j].key != k
    ensures IndexOf(o, k) == Some(i)
  {
    match IndexOf(o, k)
    case None =>
    case Some(m) =>
  }

  lemma NotFound(o: Object, k: string)
    requires forall j :: 0 <= j < |o| ==> o[j].key != k
    ensures IndexOf(o, k) == None
  {
  }
}
