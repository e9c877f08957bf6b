/**
 * The backend capability the context logger writes through: a handle that can
 * derive a new handle carrying extra fields, and that can emit a message.
 * A handle is modelled by the batches of fields folded into it, oldest first;
 * what the backend records for a message is the merge of those batches, in
 * which a later batch overrides an earlier one on a shared name.
 */
module Backend {

  /** A field value; the source accepts any value here. */
  datatype FieldValue = Str(s: string) | Int(i: int) | Bool(b: bool)

  /** One batch of named fields. */
  type Fields = map<string, FieldValue>

  datatype Handle = Handle(batches: seq<Fields>)
  {
    /** The handle derived by folding `f` into this one; this handle itself is left as it is. */
    function WithFields(f: Fields): (r: Handle)
      ensures |r.batches| == |batches| + 1 && r.batches[..|batches|] == batches
      ensures r.batches[|batches|] == f
    {
      Handle(batches + [f])
    }
  }

  /** One message the backend emitted, with the fields attached to it. */
  datatype Record = Record(fields: Fields, msg: string)

  /** Batch `j` is the last one in `bs` that names `n`. */
  ghost predicate LastWriter(bs: seq<Fields>, n: string, j: int)
  {
    0 <= j < |bs| && n in bs[j] && forall k :: j < k < |bs| ==> n !in bs[k]
  }

  /** The merged fields of a series of batches: every name any batch gives, with the value of its last writer. */
  function Flatten(bs: seq<Fields>): (r: Fields)
    ensures forall j, n :: 0 <= j < |bs| && n in bs[j] ==> n in r
    ensures forall n :: n in r ==> exists j :: 0 <= j < |bs| && n in bs[j]
    ensures forall n, j :: LastWriter(bs, n, j) ==> n in r && r[n] == bs[j][n]
    decreases |bs|
  {
    if bs == [] then map[]
    else
      var init, last := bs[..|bs| - 1], bs[|bs| - 1];
      var prev := Flatten(init);
      var r := prev + last;
      assert forall j, n :: 0 <= j < |bs| && n in bs[j] ==> n in r by {
        forall j, n | 0 <= j < |bs| && n in bs[j]
          ensures n in r
        {
          if j < |init| {
            assert init[j] == bs[j];
          }
        }
      }
      assert forall n :: n in r ==> exists j :: 0 <= j < |bs| && n in bs[j] by {
        forall n | n in r
          ensures exists j :: 0 <= j < |bs| && n in bs[j]
        {
          if n !in last {
            var j :| 0 <= j < |init| && n in init[j];
            assert bs[j] == init[j];
          } else {
            assert n in bs[|bs| - 1];
          }
        }
      }
      assert forall n, j :: LastWriter(bs, n, j) ==> n in r && r[n] == bs[j][n] by {
        forall n, j | LastWriter(bs, n, j)
          ensures n in r && r[n] == bs[j][n]
        {
          if j < |init| {
            assert LastWriter(init, n, j);
          }
        }
      }
      r
  }

  /** The fields a handle carries. */
  function FieldsOf(h: Handle): Fields
  {
    Flatten(h.batches)
  }

  /** What the backend records when it emits `msg` on handle `h`. */
  function Emit(h: Handle, msg: string): (r: Record)
    ensures r.msg == msg
    ensures forall n :: n in r.fields <==> exists j :: 0 <= j < |h.batches| && n in h.batches[j]
  {
    Record(FieldsOf(h), msg)
  }

  /** Merging two series of batches is merging their merges, the later winning. */
  lemma {:induction false} FlattenAppend(a: seq<Fields>, b: seq<Fields>)
    ensures Flatten(a + b) == Flatten(a) + Flatten(b)
    decreases |b|
  {
    if b == [] {
      assert a + b == a;
    } else {
      var init, last := b[..|b| - 1], b[|b| - 1];
      FlattenAppend(a, init);
      assert (a + b)[..|a + b| - 1] == a + init;
      assert (a + b)[|a + b| - 1] == last;
      assert Flatten(a + b) == Flatten(a + init) + last;
      assert Flatten(b) == Flatten(init) + last;
      MapUnionAssoc(Flatten(a), Flatten(init), last);
    }
  }

  lemma MapUnionAssoc(x: Fields, y: Fields, z: Fields)
    ensures (x + y) + z == x + (y + z)
  {
  }

  lemma MapUnionIdempotent(x: Fields)
    ensures x + x == x
  {
  }

  /**
   * Successive `WithFields` calls accumulate on one handle chain: the fields of
   * both calls are present, and the later call wins where their names collide.
   */
  lemma WithFieldsAccumulate(h: Handle, f: Fields, g: Fields)
    ensures FieldsOf(h.WithFields(f)) == FieldsOf(h) + f
    ensures FieldsOf(h.WithFields(f).WithFields(g)) == FieldsOf(h) + f + g
    ensures forall n :: n in g ==> FieldsOf(h.WithFields(f).WithFields(g))[n] == g[n]
    ensures forall n :: n in f && n !in g ==> FieldsOf(h.WithFields(f).WithFields(g))[n] == f[n]
  {
    FlattenAppend(h.batches, [f]);
    FlattenAppend(h.batches + [f], [g]);
  }
}
