/**
 * What the option builders of the commands have in common: the values they
 * store, and the content flags that decide between a plain call and one
 * that also fetches contents.
 */
module Options {
  import opened Js

  /** The value stored for a parsed number: the number itself (only read where it is defined). */
  function NumValue(r: Option<Number>): Value {
    if r.Some? then Num(r.value) else Absent
  }

  /** The value stored for a parsed list (only read where it is defined). */
  function ListValue(r: Option<seq<string>>): Value {
    if r.Some? then StrList(r.value) else Absent
  }

  /** `args.text === true || args.highlights === true || args.summary === true` */
  predicate HasContentOptions(args: Dict) {
    IsTrue(Get(args, "text")) || IsTrue(Get(args, "highlights")) || IsTrue(Get(args, "summary"))
  }

  /** The three content flags, each stored as `true` exactly when its argument is exactly `true`. */
  predicate ContentFlagsSpec(args: Dict, o: Dict) {
    SetExactlyWhen(o, "text", IsTrue(Get(args, "text")), Bool(true))
    && SetExactlyWhen(o, "highlights", IsTrue(Get(args, "highlights")), Bool(true))
    && SetExactlyWhen(o, "summary", IsTrue(Get(args, "summary")), Bool(true))
  }

  /** Options built this way carry a content key exactly when a content flag was given. */
  lemma ContentKeysIffFlags(args: Dict, o: Dict)
    requires ContentFlagsSpec(args, o)
    ensures HasContentOptions(args) <==> ("text" in o || "highlights" in o || "summary" in o)
  {
  }

  /** One conditional write of an option builder: `if (cond) options[key] = value`. */
  function Put(o: Dict, cond: bool, key: string, value: Value): Dict {
    if cond then o[key := value] else o
  }

  /** The statement `if (cond) options[key] = value`, performed on `o`. */
  method PutIf(o: Dict, cond: bool, key: string, value: Value) returns (o': Dict)
    ensures o' == Put(o, cond, key, value)
  {
    o' := o;
    if cond {
      o' := o'[key := value];
    }
  }

  /**
   * A later stage of writes that adds only keys of `added` and keeps every
   * earlier entry keeps what was said of any other key.
   */
  lemma KeepsKey(before: Dict, after: Dict, added: set<string>, key: string, cond: bool, v: Value)
    requires SetExactlyWhen(before, key, cond, v)
    requires key !in added
    requires after.Keys <= before.Keys + added
    requires forall k :: k in before ==> k in after && after[k] == before[k]
    ensures SetExactlyWhen(after, key, cond, v)
  {
  }
}
