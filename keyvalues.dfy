/** Merging an alternating key/value sequence into a field map: keys are
    rendered with `%v`, later pairs overwrite earlier ones, and a dangling
    final key gets the value "!VALUE". */
module KeyValues {
  import opened LogPoint

  /** The value the pair that starts at slot `j` stores: the next element,
      or the "!VALUE" sentinel when `j` is the last element. */
  function ValueAt<V>(kv: seq<V>, j: nat): FieldValue<V>
    requires j < |kv|
  {
    if j + 1 < |kv| then Raw(kv[j + 1]) else Str(MissingValue)
  }

  /** The map after merging `kv` into `fields`, pair by pair from the front. */
  function Merge<V>(fields: map<string, FieldValue<V>>, kv: seq<V>, render: V -> string): map<string, FieldValue<V>>
    decreases |kv|
  {
    if |kv| == 0 then fields
    else if |kv| == 1 then fields[render(kv[0]) := Str(MissingValue)]
    else Merge(fields[render(kv[0]) := Raw(kv[1])], kv[2..], render)
  }

  /** The rendered keys of `kv`: the elements at even positions. */
  ghost function KeySlots<V>(kv: seq<V>, render: V -> string): set<string>
  {
    set j | 0 <= j < |kv| && j % 2 == 0 :: render(kv[j])
  }

  /** Slot `j` holds a key that no later key slot renders the same. */
  ghost predicate LastSlotFor<V>(kv: seq<V>, render: V -> string, j: int)
  {
    && 0 <= j < |kv|
    && j % 2 == 0
    && forall i :: j < i < |kv| && i % 2 == 0 ==> render(kv[i]) != render(kv[j])
  }

  /** The key slots of a sequence: its first key and the key slots of the
      rest after the first pair. */
  lemma KeySlotsStep<V>(kv: seq<V>, render: V -> string)
    requires |kv| >= 2
    ensures KeySlots(kv, render) == {render(kv[0])} + KeySlots(kv[2..], render)
  {
  }

  /** An empty sequence leaves the map unchanged. */
  lemma MergeEmpty<V>(fields: map<string, FieldValue<V>>, render: V -> string)
    ensures Merge(fields, [], render) == fields
  {
  }

  /** Merging adds exactly the rendered keys and removes none. */
  lemma {:induction false} MergeKeys<V>(fields: map<string, FieldValue<V>>, kv: seq<V>, render: V -> string)
    ensures Merge(fields, kv, render).Keys == fields.Keys + KeySlots(kv, render)
    decreases |kv|
  {
    if |kv| == 0 {
      assert KeySlots(kv, render) == {};
    } else if |kv| == 1 {
      assert KeySlots(kv, render) == {render(kv[0])};
    } else {
      KeySlotsStep(kv, render);
      MergeKeys(fields[render(kv[0]) := Raw(kv[1])], kv[2..], render);
    }
  }

  /** An entry whose key no key slot renders to keeps its value. */
  lemma {:induction false} MergePreserves<V>(fields: map<string, FieldValue<V>>, kv: seq<V>, render: V -> string, k: string)
    requires k in fields && k !in KeySlots(kv, render)
    ensures k in Merge(fields, kv, render) && Merge(fields, kv, render)[k] == fields[k]
    decreases |kv|
  {
    if |kv| == 1 {
      assert render(kv[0]) in KeySlots(kv, render);
    } else if |kv| >= 2 {
      KeySlotsStep(kv, render);
      MergePreserves(fields[render(kv[0]) := Raw(kv[1])], kv[2..], render, k);
    }
  }

  /** Last write wins: a rendered key ends up bound to the value of the last
      pair (in input order) whose key renders to it. */
  lemma {:induction false} MergeLastWins<V>(fields: map<string, FieldValue<V>>, kv: seq<V>, render: V -> string, j: int)
    requires LastSlotFor(kv, render, j)
    ensures render(kv[j]) in Merge(fields, kv, render)
    ensures Merge(fields, kv, render)[render(kv[j])] == ValueAt(kv, j)
    decreases |kv|
  {
    var k := render(kv[j]);
    if |kv| == 1 {
    } else if j == 0 {
      var rest := kv[2..];
      forall i | 0 <= i < |rest| && i % 2 == 0
        ensures render(rest[i]) != k
      {
        assert rest[i] == kv[i + 2];
      }
      assert k !in KeySlots(rest, render);
      MergePreserves(fields[k := Raw(kv[1])], rest, render, k);
    } else {
      var rest := kv[2..];
      assert rest[j - 2] == kv[j];
      forall i | j - 2 < i < |rest| && i % 2 == 0
        ensures render(rest[i]) != render(rest[j - 2])
      {
        assert rest[i] == kv[i + 2];
      }
      MergeLastWins(fields[render(kv[0]) := Raw(kv[1])], rest, render, j - 2);
    }
  }

  /** An odd-length sequence leaves its final key bound to "!VALUE". */
  lemma MergeDanglingKey<V>(fields: map<string, FieldValue<V>>, kv: seq<V>, render: V -> string)
    requires |kv| % 2 == 1
    ensures render(kv[|kv| - 1]) in Merge(fields, kv, render)
    ensures Merge(fields, kv, render)[render(kv[|kv| - 1])] == Str(MissingValue)
  {
    MergeLastWins(fields, kv, render, |kv| - 1);
  }

  /** The field map a log call with key/values builds before it is encoded:
      the message, caller and stack entries plus the rendered keys, and each
      of message, caller and stack keeps its value unless a key renders to
      its name. */
  lemma MergedLogFields<V>(message: string, caller: string, stack: seq<string>, kv: seq<V>, render: V -> string)
    ensures Merge(BaseFields(message, caller, stack), kv, render).Keys
         == BaseKeys(caller, stack) + KeySlots(kv, render)
    ensures "message" !in KeySlots(kv, render) ==>
              Merge(BaseFields(message, caller, stack), kv, render)["message"] == Str(message)
    ensures caller != "" && "caller" !in KeySlots(kv, render) ==>
              Merge(BaseFields(message, caller, stack), kv, render)["caller"] == Str(caller)
    ensures |stack| > 0 && "stack" !in KeySlots(kv, render) ==>
              Merge(BaseFields(message, caller, stack), kv, render)["stack"] == Str(Join(stack, StackSeparator))
  {
    var base: map<string, FieldValue<V>> := BaseFields(message, caller, stack);
    MergeKeys(base, kv, render);
    if "message" !in KeySlots(kv, render) {
      MergePreserves(base, kv, render, "message");
    }
    if caller != "" && "caller" !in KeySlots(kv, render) {
      MergePreserves(base, kv, render, "caller");
    }
    if |stack| > 0 && "stack" !in KeySlots(kv, render) {
      MergePreserves(base, kv, render, "stack");
    }
  }
}
