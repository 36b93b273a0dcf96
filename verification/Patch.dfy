/**
 * The JSON patch builder for Kubernetes metadata, and what its patches do to an object: paths as in
 * sections 3 and 4 of RFC 6901, operations as in section 4 of RFC 6902.
 */
module Pointers {

  /** `strings.Replace(key, "/", "~1", -1)`. */
  function Escape(key: string): string {
    if key == "" then ""
    else (if key[0] == '/' then "~1" else [key[0]]) + Escape(key[1..])
  }

  /** Replacing every "~" followed by `digit`, from the left. */
  function ReplaceTilde(s: string, digit: char, with: char): string {
    if s == "" then ""
    else if s[0] == '~' && |s| > 1 && s[1] == digit then [with] + ReplaceTilde(s[2..], digit, with)
    else [s[0]] + ReplaceTilde(s[1..], digit, with)
  }

  /** The key a reference token stands for: first "~1" becomes "/", then "~0" becomes "~". */
  function Unescape(token: string): string {
    ReplaceTilde(ReplaceTilde(token, '1', '/'), '0', '~')
  }

  /** A key that says "~0" or "~1" itself. */
  predicate LooksEscaped(key: string) {
    exists i | 0 <= i < |key| - 1 :: key[i] == '~' && (key[i + 1] == '0' || key[i + 1] == '1')
  }

  /** Escaping slashes is undone by the first replacement, whatever else the key holds. */
  lemma {:induction false} EscapeIsTransparent(key: string)
    ensures ReplaceTilde(Escape(key), '1', '/') == ReplaceTilde(key, '1', '/')
  {
    if key == "" {
    } else if key[0] == '/' {
      EscapeIsTransparent(key[1..]);
      assert Escape(key)[2..] == Escape(key[1..]);
    } else if key[0] == '~' && |key| > 1 && key[1] == '1' {
      EscapeIsTransparent(key[2..]);
      assert key[1..][0] == '1' && key[1..][1..] == key[2..];
      assert Escape(key) == "~1" + Escape(key[2..]);
      assert Escape(key)[2..] == Escape(key[2..]);
    } else {
      EscapeIsTransparent(key[1..]);
      assert Escape(key)[1..] == Escape(key[1..]);
      if |key| > 1 { assert Escape(key[1..])[0] == if key[1] == '/' then '~' else key[1]; }
    }
  }

  lemma {:induction false} ReplaceShortens(s: string, digit: char, with: char)
    ensures |ReplaceTilde(s, digit, with)| <= |s|
    ensures |ReplaceTilde(s, digit, with)| == |s| <==> forall i | 0 <= i < |s| - 1 :: !(s[i] == '~' && s[i + 1] == digit)
    ensures |ReplaceTilde(s, digit, with)| == |s| ==> ReplaceTilde(s, digit, with) == s
  {
    if s == "" {
    } else if s[0] == '~' && |s| > 1 && s[1] == digit {
      ReplaceShortens(s[2..], digit, with);
    } else {
      ReplaceShortens(s[1..], digit, with);
      forall i | 0 <= i < |s| - 1 && s[i] == '~' && s[i + 1] == digit
        ensures |ReplaceTilde(s, digit, with)| < |s|
      {
        assert s[1..][i - 1] == '~' && s[1..][i] == digit;
      }
      var rest := s[1..];
      forall i | 0 <= i < |rest| - 1 && rest[i] == '~' && rest[i + 1] == digit
        ensures |ReplaceTilde(rest, digit, with)| < |rest|
      {
        assert s[i + 1] == '~' && s[(i + 1) + 1] == digit;
      }
    }
  }

  /** An escaped token stands for the key it was made from exactly when the key does not itself look escaped. */
  lemma EscapeRoundTrip(key: string)
    ensures Unescape(Escape(key)) == key <==> !LooksEscaped(key)
  {
    EscapeIsTransparent(key);
    ReplaceShortens(key, '1', '/');
    ReplaceShortens(ReplaceTilde(key, '1', '/'), '0', '~');
    if |ReplaceTilde(key, '1', '/')| == |key| {
      assert ReplaceTilde(key, '1', '/') == key;
    }
  }

  /** An escaped key is a single reference token. */
  lemma {:induction false} EscapeHasNoSlash(key: string)
    ensures forall i | 0 <= i < |Escape(key)| :: Escape(key)[i] != '/'
  {
    if key != "" { EscapeHasNoSlash(key[1..]); }
  }

  /** Keys that do not look escaped never share a token, as "a/b" and "a~1b" do. */
  lemma EscapeIsInjective(a: string, b: string)
    requires !LooksEscaped(a) && !LooksEscaped(b) && Escape(a) == Escape(b)
    ensures a == b
  {
    EscapeRoundTrip(a);
    EscapeRoundTrip(b);
  }
}

module Patches {
  import opened Wrappers
  import opened Pointers

  type Members = map<string, string>

  /** The two maps of an object's metadata. */
  datatype Field = Labels | Annotations

  function Root(f: Field): string {
    match f
    case Labels => "/metadata/labels"
    case Annotations => "/metadata/annotations"
  }

  /** The operations the builder emits: an empty container, a member value, and the removal of a member. */
  datatype Op = AddEmpty(path: string) | Replace(path: string, value: string) | Remove(path: string)

  /** A document: each map is there or not. */
  datatype Doc = Doc(labels: Option<Members>, annotations: Option<Members>)

  function Get(d: Doc, f: Field): Option<Members> {
    match f
    case Labels => d.labels
    case Annotations => d.annotations
  }

  function Put(d: Doc, f: Field, m: Members): Doc {
    match f
    case Labels => d.(labels := Some(m))
    case Annotations => d.(annotations := Some(m))
  }

  /** What a path into the metadata designates. */
  datatype Target = Container(f: Field) | Member(f: Field, key: string) | Elsewhere

  /** The member of field f that a path names, if it lies one token below the root of f. */
  function MemberOf(path: string, f: Field): Option<string> {
    var r := Root(f) + "/";
    if r <= path && (forall i | |r| <= i < |path| :: path[i] != '/') then Some(Unescape(path[|r|..])) else None
  }

  function Resolve(path: string): Target {
    if path == Root(Labels) then Container(Labels)
    else if path == Root(Annotations) then Container(Annotations)
    else if MemberOf(path, Labels).Some? then Member(Labels, MemberOf(path, Labels).value)
    else if MemberOf(path, Annotations).Some? then Member(Annotations, MemberOf(path, Annotations).value)
    else Elsewhere
  }

  /** Whether `replace` may create a member (as the API server's patch library lets it) or needs one (section 4.3 of RFC 6902). */
  datatype Mode = Upsert | Strict

  /** One operation; None is the failure of the whole patch. */
  function ApplyOp(mode: Mode, d: Doc, op: Op): Option<Doc> {
    match op
    case AddEmpty(path) =>
      (match Resolve(path)
       case Container(f) => Some(Put(d, f, map[]))
       case _ => None)
    case Replace(path, value) =>
      (match Resolve(path)
       case Member(f, k) =>
         if Get(d, f).None? || (mode.Strict? && k !in Get(d, f).value) then None
         else Some(Put(d, f, Get(d, f).value[k := value]))
       case _ => None)
    case Remove(path) =>
      (match Resolve(path)
       case Member(f, k) =>
         if Get(d, f).None? || k !in Get(d, f).value then None
         else Some(Put(d, f, Get(d, f).value - {k}))
       case _ => None)
  }

  function Apply(mode: Mode, d: Doc, ops: seq<Op>): Option<Doc> {
    if ops == [] then Some(d)
    else match Apply(mode, d, ops[..|ops| - 1])
         case None => None
         case Some(d') => ApplyOp(mode, d', ops[|ops| - 1])
  }

  lemma {:induction false} ApplyAppend(mode: Mode, d: Doc, a: seq<Op>, b: seq<Op>)
    ensures Apply(mode, d, a + b) ==
              match Apply(mode, d, a)
              case None => None
              case Some(d') => Apply(mode, d', b)
  {
    if b == [] {
      assert a + b == a;
    } else {
      assert (a + b)[..|a + b| - 1] == a + b[..|b| - 1];
      ApplyAppend(mode, d, a, b[..|b| - 1]);
    }
  }

  /** The path the builder writes for a key. */
  function PathOf(f: Field, key: string): string {
    Root(f) + "/" + Escape(key)
  }

  lemma LiteralPaths(key: string)
    ensures PathOf(Labels, key) == "/metadata/labels" + "/" + Escape(key) == "/metadata/labels/" + Escape(key)
    ensures PathOf(Annotations, key) == "/metadata/annotations" + "/" + Escape(key) == "/metadata/annotations/" + Escape(key)
  {
    assert "/metadata/labels" + "/" == "/metadata/labels/";
    assert "/metadata/annotations" + "/" == "/metadata/annotations/";
  }

  lemma PathNamesMember(f: Field, key: string)
    ensures MemberOf(PathOf(f, key), f) == Some(Unescape(Escape(key)))
  {
    EscapeHasNoSlash(key);
    var path := PathOf(f, key);
    var r := Root(f) + "/";
    assert path[|r|..] == Escape(key);
    assert forall i | |r| <= i < |path| :: path[i] == Escape(key)[i - |r|];
  }

  /** The two roots differ in their tenth character. */
  lemma PathIsNoOther(f: Field, key: string)
    ensures PathOf(f, key) != Root(Labels) && PathOf(f, key) != Root(Annotations)
    ensures f == Annotations ==> MemberOf(PathOf(f, key), Labels).None?
  {
    var path := PathOf(f, key);
    assert path[10] == Root(f)[10];
    assert Root(Labels)[10] != Root(Annotations)[10];
  }

  /** The path of a key resolves to that very member exactly when the key does not look escaped. */
  lemma PathResolves(f: Field, key: string)
    ensures Resolve(PathOf(f, key)) == Member(f, Unescape(Escape(key)))
    ensures Resolve(PathOf(f, key)) == Member(f, key) <==> !LooksEscaped(key)
  {
    EscapeRoundTrip(key);
    PathNamesMember(f, key);
    PathIsNoOther(f, key);
  }

  lemma RootResolves(f: Field)
    ensures Resolve(Root(f)) == Container(f)
  {
    assert Root(Labels)[10] != Root(Annotations)[10];
  }

  // ---------- the builder ----------

  /** What a caller asks of the builder. */
  datatype Request = SetKey(f: Field, key: string, value: string) | RemoveKey(f: Field, key: string)

  /** The object the builder is shown: a map that is missing and one that is empty look the same. */
  datatype Object = Object(labels: Members, annotations: Members)

  function Shown(o: Object, f: Field): Members {
    match f
    case Labels => o.labels
    case Annotations => o.annotations
  }

  ghost predicate ShowsField(d: Doc, o: Object, f: Field) {
    match Get(d, f)
    case None => Shown(o, f) == map[]
    case Some(m) => m == Shown(o, f)
  }

  /** Document d is object o: a non-empty map is there; an empty one may be left out. */
  ghost predicate Represents(d: Doc, o: Object) {
    ShowsField(d, o, Labels) && ShowsField(d, o, Annotations)
  }

  /** The operations for one request, given whether the container of its field was already seen to. */
  function Emitted(o: Object, req: Request, flag: bool): seq<Op> {
    match req
    case SetKey(f, key, value) =>
      (if !flag && |Shown(o, f)| == 0 then [AddEmpty(Root(f))] else []) + [Replace(PathOf(f, key), value)]
    case RemoveKey(f, key) => [Remove(PathOf(f, key))]
  }

  /** Some request so far set a key of f. */
  predicate Touches(reqs: seq<Request>, f: Field) {
    exists i | 0 <= i < |reqs| :: reqs[i].SetKey? && reqs[i].f == f
  }

  /** The patch a new builder holds after the given requests. */
  function PatchFor(o: Object, reqs: seq<Request>): seq<Op> {
    if reqs == [] then []
    else
      var front, last := reqs[..|reqs| - 1], reqs[|reqs| - 1];
      PatchFor(o, front) + Emitted(o, last, Touches(front, last.f))
  }

  lemma PatchForSnoc(o: Object, reqs: seq<Request>, req: Request)
    ensures PatchFor(o, reqs + [req]) == PatchFor(o, reqs) + Emitted(o, req, Touches(reqs, req.f))
    ensures forall f: Field :: Touches(reqs + [req], f) <==> Touches(reqs, f) || (req.SetKey? && req.f == f)
  {
    var all := reqs + [req];
    assert all[..|reqs|] == reqs;
    forall f: Field ensures Touches(all, f) <==> Touches(reqs, f) || (req.SetKey? && req.f == f) {
      assert all[|reqs|] == req;
      assert forall i | 0 <= i < |reqs| :: all[i] == reqs[i];
    }
  }

  class Builder {
    var ops: seq<Op>
    var labels: bool
    var annotations: bool

    constructor ()
      ensures ops == [] && !labels && !annotations
    {
      ops, labels, annotations := [], false, false;
    }

    function Flag(f: Field): bool
      reads this
    {
      match f
      case Labels => labels
      case Annotations => annotations
    }

    method Add(more: seq<Op>)
      modifies this`ops
      ensures ops == old(ops) + more
    {
      ops := ops + more;
    }

    method SetLabel(o: Object, key: string, value: string)
      modifies this
      ensures ops == old(ops) + Emitted(o, SetKey(Labels, key, value), old(labels))
      ensures labels && annotations == old(annotations)
      ensures ops != [] && ops[|ops| - 1] == Replace("/metadata/labels/" + Escape(key), value)
      ensures |ops| == |old(ops)| + (if !old(labels) && |o.labels| == 0 then 2 else 1)
      ensures |ops| == |old(ops)| + 2 ==> ops[|old(ops)|] == AddEmpty("/metadata/labels")
    {
      LiteralPaths(key);
      var payload := [];
      if !labels && |o.labels| == 0 {
        payload := payload + [AddEmpty("/metadata/labels")];
      }
      labels := true;
      payload := payload + [Replace("/metadata/labels" + "/" + Escape(key), value)];
      Add(payload);
    }

    method SetAnnotation(o: Object, key: string, value: string)
      modifies this
      ensures ops == old(ops) + Emitted(o, SetKey(Annotations, key, value), old(annotations))
      ensures annotations && labels == old(labels)
      ensures ops != [] && ops[|ops| - 1] == Replace("/metadata/annotations/" + Escape(key), value)
      ensures |ops| == |old(ops)| + (if !old(annotations) && |o.annotations| == 0 then 2 else 1)
      ensures |ops| == |old(ops)| + 2 ==> ops[|old(ops)|] == AddEmpty("/metadata/annotations")
    {
      LiteralPaths(key);
      var payload := [];
      var anno := o.annotations;
      if !annotations && |anno| == 0 {
        payload := payload + [AddEmpty("/metadata/annotations")];
      }
      annotations := true;
      payload := payload + [Replace("/metadata/annotations" + "/" + Escape(key), value)];
      Add(payload);
    }

    method RemoveLabel(key: string)
      modifies this`ops
      ensures ops == old(ops) + [Remove(PathOf(Labels, key))]
      ensures ops == old(ops) + [Remove("/metadata/labels/" + Escape(key))]
    {
      LiteralPaths(key);
      Add([Remove("/metadata/labels" + "/" + Escape(key))]);
    }

    method RemoveAnnotation(key: string)
      modifies this`ops
      ensures ops == old(ops) + [Remove(PathOf(Annotations, key))]
      ensures ops == old(ops) + [Remove("/metadata/annotations/" + Escape(key))]
    {
      LiteralPaths(key);
      Add([Remove("/metadata/annotations" + "/" + Escape(key))]);
    }

    method Call(o: Object, req: Request)
      modifies this
      ensures ops == old(ops) + Emitted(o, req, old(Flag(req.f)))
      ensures labels <==> old(labels) || (req.SetKey? && req.f == Labels)
      ensures annotations <==> old(annotations) || (req.SetKey? && req.f == Annotations)
    {
      match req {
        case SetKey(Labels, key, value) => SetLabel(o, key, value);
        case SetKey(Annotations, key, value) => SetAnnotation(o, key, value);
        case RemoveKey(Labels, key) => RemoveLabel(key);
        case RemoveKey(Annotations, key) => RemoveAnnotation(key);
      }
    }

    /** The builder holds the patch for the requests so far and knows which maps they touched. */
    ghost predicate Holds(o: Object, reqs: seq<Request>)
      reads this
    {
      && ops == PatchFor(o, reqs)
      && (labels <==> Touches(reqs, Labels))
      && (annotations <==> Touches(reqs, Annotations))
    }

    method CallNext(o: Object, ghost front: seq<Request>, req: Request)
      requires Holds(o, front)
      modifies this
      ensures Holds(o, front + [req])
    {
      PatchForSnoc(o, front, req);
      Call(o, req);
    }

    /** A whole sequence of calls on a new builder for one object. */
    method Build(o: Object, reqs: seq<Request>)
      requires ops == [] && !labels && !annotations
      modifies this
      ensures ops == PatchFor(o, reqs)
    {
      for i := 0 to |reqs|
        invariant Holds(o, reqs[..i])
      {
        CallNext(o, reqs[..i], reqs[i]);
        assert reqs[..i + 1] == reqs[..i] + [reqs[i]];
      }
      assert reqs[..|reqs|] == reqs;
    }
  }

  // ---------- what the patch means ----------

  function Update(o: Object, f: Field, m: Members): Object {
    match f
    case Labels => o.(labels := m)
    case Annotations => o.(annotations := m)
  }

  /** The requests as updates of the object's maps; None if a key is removed that is not there. */
  function Fold(o: Object, reqs: seq<Request>): Option<Object> {
    if reqs == [] then Some(o)
    else match Fold(o, reqs[..|reqs| - 1])
         case None => None
         case Some(o') =>
           match reqs[|reqs| - 1]
           case SetKey(f, key, value) => Some(Update(o', f, Shown(o', f)[key := value]))
           case RemoveKey(f, key) => if key in Shown(o', f) then Some(Update(o', f, Shown(o', f) - {key})) else None
  }

  ghost predicate PlainKeys(reqs: seq<Request>) {
    forall i | 0 <= i < |reqs| :: !LooksEscaped(reqs[i].key)
  }

  /** The key that the path written for a key stands for. */
  function ReadKey(key: string): string {
    Unescape(Escape(key))
  }

  /** A request as a reader of the patch understands it. */
  function Read(req: Request): Request {
    match req
    case SetKey(f, key, value) => SetKey(f, ReadKey(key), value)
    case RemoveKey(f, key) => RemoveKey(f, ReadKey(key))
  }

  function AsRead(reqs: seq<Request>): seq<Request> {
    if reqs == [] then [] else AsRead(reqs[..|reqs| - 1]) + [Read(reqs[|reqs| - 1])]
  }

  lemma {:induction false} AsReadAt(reqs: seq<Request>)
    ensures |AsRead(reqs)| == |reqs|
    ensures forall i | 0 <= i < |reqs| :: AsRead(reqs)[i] == Read(reqs[i])
  {
    if reqs != [] { AsReadAt(reqs[..|reqs| - 1]); }
  }

  /** Requests are understood as they were made exactly if no key looks escaped. */
  lemma PlainKeysAreRead(reqs: seq<Request>)
    ensures AsRead(reqs) == reqs <==> PlainKeys(reqs)
  {
    AsReadAt(reqs);
    forall i | 0 <= i < |reqs| ensures Read(reqs[i]) == reqs[i] <==> !LooksEscaped(reqs[i].key) {
      EscapeRoundTrip(reqs[i].key);
    }
    if AsRead(reqs) == reqs {
      forall i | 0 <= i < |reqs| ensures !LooksEscaped(reqs[i].key) {
        assert AsRead(reqs)[i] == reqs[i];
      }
    }
  }

  lemma AsReadTouches(reqs: seq<Request>, f: Field)
    ensures Touches(AsRead(reqs), f) <==> Touches(reqs, f)
  {
    AsReadAt(reqs);
    if Touches(reqs, f) {
      var i :| 0 <= i < |reqs| && reqs[i].SetKey? && reqs[i].f == f;
      assert AsRead(reqs)[i].SetKey?;
    }
  }

  /** A field has its map in the document if the object had one or some request set a key. */
  ghost predicate Opened(d: Doc, o: Object, reqs: seq<Request>) {
    forall f: Field :: (|Shown(o, f)| > 0 || Touches(reqs, f)) ==> Get(d, f).Some?
  }

  lemma ApplyOne(mode: Mode, d: Doc, op: Op)
    ensures Apply(mode, d, [op]) == ApplyOp(mode, d, op)
  {
    assert [op][..0] == [];
  }

  lemma PutRepresents(d: Doc, o: Object, f: Field, m: Members)
    requires Represents(d, o)
    ensures Represents(Put(d, f, m), Update(o, f, m))
    ensures Get(Put(d, f, m), f) == Some(m)
    ensures forall g: Field | Get(d, g).Some? :: Get(Put(d, f, m), g).Some?
  {
  }

  lemma SetMeaning(d: Doc, o: Object, now: Object, f: Field, key: string, value: string, flag: bool)
    requires Represents(d, now)
    requires flag || |Shown(o, f)| > 0 ==> Get(d, f).Some?
    requires !flag && |Shown(o, f)| == 0 ==> Shown(now, f) == map[]
    ensures Apply(Upsert, d, Emitted(o, SetKey(f, key, value), flag)) == Some(Put(d, f, Shown(now, f)[ReadKey(key) := value]))
  {
    PathResolves(f, key);
    RootResolves(f);
    assert ShowsField(d, now, f);
    var replace := Replace(PathOf(f, key), value);
    if !flag && |Shown(o, f)| == 0 {
      ApplyAppend(Upsert, d, [AddEmpty(Root(f))], [replace]);
      ApplyOne(Upsert, d, AddEmpty(Root(f)));
      ApplyOne(Upsert, Put(d, f, map[]), replace);
    } else {
      assert Emitted(o, SetKey(f, key, value), flag) == [replace];
      ApplyOne(Upsert, d, replace);
    }
  }

  lemma RemoveMeaning(d: Doc, now: Object, f: Field, key: string)
    requires Represents(d, now)
    ensures Apply(Upsert, d, [Remove(PathOf(f, key))]) ==
              if ReadKey(key) in Shown(now, f) then Some(Put(d, f, Shown(now, f) - {ReadKey(key)})) else None
  {
    PathResolves(f, key);
    assert ShowsField(d, now, f);
    ApplyOne(Upsert, d, Remove(PathOf(f, key)));
  }

  lemma EmittedMeaning(d: Doc, o: Object, now: Object, reqs: seq<Request>, req: Request)
    requires Represents(d, now) && Opened(d, o, reqs)
    requires !Touches(reqs, req.f) && |Shown(o, req.f)| == 0 ==> Shown(now, req.f) == map[]
    ensures var r := Apply(Upsert, d, Emitted(o, req, Touches(reqs, req.f)));
            match Read(req)
            case SetKey(f, key, value) =>
              r.Some? && Represents(r.value, Update(now, f, Shown(now, f)[key := value])) && Opened(r.value, o, reqs + [req])
            case RemoveKey(f, key) =>
              if key in Shown(now, f) then
                r.Some? && Represents(r.value, Update(now, f, Shown(now, f) - {key})) && Opened(r.value, o, reqs + [req])
              else r.None?
  {
    var f := req.f;
    PatchForSnoc(o, reqs, req);
    match req
    case SetKey(_, key, value) =>
      SetMeaning(d, o, now, f, key, value, Touches(reqs, f));
      PutRepresents(d, now, f, Shown(now, f)[ReadKey(key) := value]);
    case RemoveKey(_, key) =>
      RemoveMeaning(d, now, f, key);
      PutRepresents(d, now, f, Shown(now, f) - {ReadKey(key)});
  }

  /** Removing keys alone never fills an empty map. */
  lemma {:induction false} UntouchedStaysEmpty(o: Object, reqs: seq<Request>, f: Field)
    requires Fold(o, reqs).Some? && !Touches(reqs, f) && Shown(o, f) == map[]
    ensures Shown(Fold(o, reqs).value, f) == map[]
  {
    if reqs != [] {
      var front, last := reqs[..|reqs| - 1], reqs[|reqs| - 1];
      assert forall i | 0 <= i < |front| :: front[i] == reqs[i];
      assert reqs[|reqs| - 1] == last;
      UntouchedStaysEmpty(o, front, f);
    }
  }

  lemma {:induction false} PatchRun(d: Doc, o: Object, reqs: seq<Request>)
    requires Represents(d, o)
    ensures var r, m := Apply(Upsert, d, PatchFor(o, reqs)), Fold(o, AsRead(reqs));
            && (r.Some? <==> m.Some?)
            && (r.Some? ==> Represents(r.value, m.value) && Opened(r.value, o, reqs))
  {
    if reqs == [] {
    } else {
      var front, last := reqs[..|reqs| - 1], reqs[|reqs| - 1];
      assert reqs == front + [last];
      assert AsRead(reqs)[..|AsRead(reqs)| - 1] == AsRead(front);
      PatchRun(d, o, front);
      ApplyAppend(Upsert, d, PatchFor(o, front), Emitted(o, last, Touches(front, last.f)));
      if Fold(o, AsRead(front)).Some? {
        var now := Fold(o, AsRead(front)).value;
        AsReadTouches(front, last.f);
        if !Touches(front, last.f) && |Shown(o, last.f)| == 0 { UntouchedStaysEmpty(o, AsRead(front), last.f); }
        EmittedMeaning(Apply(Upsert, d, PatchFor(o, front)).value, o, now, front, last);
      }
    }
  }

  /**
   * For any sequence of requests on one object, applying the patch to any document of that object gives
   * exactly the object with the map updates made one after the other, each on the key that its path stands
   * for, and it fails exactly when some request removes a key that is not there. Without keys that look
   * escaped these are the requests themselves.
   */
  lemma PatchIsSequentialUpdate(d: Doc, o: Object, reqs: seq<Request>)
    requires Represents(d, o)
    ensures var r, m := Apply(Upsert, d, PatchFor(o, reqs)), Fold(o, AsRead(reqs));
            && (r.Some? <==> m.Some?)
            && (r.Some? ==> Represents(r.value, m.value))
    ensures AsRead(reqs) == reqs <==> PlainKeys(reqs)
  {
    PatchRun(d, o, reqs);
    PlainKeysAreRead(reqs);
  }

  /** Setting keys only, the patch always applies. */
  lemma {:induction false} SetsNeverFail(o: Object, reqs: seq<Request>)
    requires forall i | 0 <= i < |reqs| :: reqs[i].SetKey?
    ensures Fold(o, reqs).Some?
  {
    if reqs != [] { SetsNeverFail(o, reqs[..|reqs| - 1]); }
  }

  // ---------- where containers are added ----------

  function CountAdds(ops: seq<Op>, f: Field): nat {
    if ops == [] then 0
    else CountAdds(ops[..|ops| - 1], f) + if ops[|ops| - 1] == AddEmpty(Root(f)) then 1 else 0
  }

  lemma {:induction false} CountAddsAppend(a: seq<Op>, b: seq<Op>, f: Field)
    ensures CountAdds(a + b, f) == CountAdds(a, f) + CountAdds(b, f)
  {
    if b == [] {
      assert a + b == a;
    } else {
      assert (a + b)[..|a + b| - 1] == a + b[..|b| - 1];
      CountAddsAppend(a, b[..|b| - 1], f);
    }
  }

  /** The operation at i writes or removes a member of f. */
  predicate Uses(op: Op, f: Field) {
    !op.AddEmpty? && Root(f) + "/" <= op.path
  }

  /** The roots of the two fields are told apart by their tenth character. */
  lemma UsesOwnField(f: Field, g: Field, key: string)
    ensures Root(f) + "/" <= PathOf(g, key) <==> f == g
    ensures Root(f) == Root(g) <==> f == g
  {
    if f != g {
      assert Root(f)[10] != Root(g)[10];
      assert PathOf(g, key)[10] == Root(g)[10];
    }
  }

  lemma CountAddsOne(op: Op, f: Field)
    ensures CountAdds([op], f) == if op == AddEmpty(Root(f)) then 1 else 0
  {
    assert [op][..0] == [];
  }

  lemma EmittedAdds(o: Object, req: Request, flag: bool, f: Field)
    ensures CountAdds(Emitted(o, req, flag), f) == if req.SetKey? && req.f == f && !flag && |Shown(o, f)| == 0 then 1 else 0
  {
    UsesOwnField(f, req.f, req.key);
    match req
    case SetKey(g, key, value) =>
      CountAddsOne(AddEmpty(Root(g)), f);
      CountAddsOne(Replace(PathOf(g, key), value), f);
      CountAddsAppend(if !flag && |Shown(o, g)| == 0 then [AddEmpty(Root(g))] else [], [Replace(PathOf(g, key), value)], f);
    case RemoveKey(g, key) => CountAddsOne(Remove(PathOf(g, key)), f);
  }

  /** The operation needs the container of f to be there. */
  ghost predicate Needs(op: Op, f: Field) {
    op.Replace? && Uses(op, f)
  }

  ghost predicate AddedBefore(ops: seq<Op>, i: nat, f: Field)
    requires i <= |ops|
  {
    exists j :: 0 <= j < i && ops[j] == AddEmpty(Root(f))
  }

  /** Every value written below the root of f comes after an operation that adds that root. */
  ghost predicate AddsFirst(ops: seq<Op>, f: Field) {
    forall i | 0 <= i < |ops| && Needs(ops[i], f) :: AddedBefore(ops, i, f)
  }

  lemma AddsFirstAppend(a: seq<Op>, b: seq<Op>, f: Field)
    requires AddsFirst(a, f)
    requires forall i | 0 <= i < |b| && Needs(b[i], f) :: AddedBefore(a, |a|, f) || AddedBefore(b, i, f)
    ensures AddsFirst(a + b, f)
  {
    var all: seq<Op> := a + b;
    forall i | 0 <= i < |all| && Needs(all[i], f) ensures AddedBefore(all, i, f) {
      if i < |a| {
        assert AddedBefore(a, i, f);
        var j :| 0 <= j < i && a[j] == AddEmpty(Root(f));
        assert all[j] == a[j];
      } else if AddedBefore(a, |a|, f) {
        var j :| 0 <= j < |a| && a[j] == AddEmpty(Root(f));
        assert all[j] == a[j];
      } else {
        assert Needs(b[i - |a|], f);
        var j :| 0 <= j < i - |a| && b[j] == AddEmpty(Root(f));
        assert all[|a| + j] == b[j];
      }
    }
  }

  lemma {:induction false} AddedSomewhere(ops: seq<Op>, f: Field) returns (j: nat)
    requires CountAdds(ops, f) > 0
    ensures j < |ops| && ops[j] == AddEmpty(Root(f))
  {
    if ops[|ops| - 1] == AddEmpty(Root(f)) {
      j := |ops| - 1;
    } else {
      j := AddedSomewhere(ops[..|ops| - 1], f);
    }
  }

  lemma AddsFirstSnoc(o: Object, reqs: seq<Request>, req: Request, f: Field)
    requires |Shown(o, f)| == 0 && AddsFirst(PatchFor(o, reqs), f)
    requires CountAdds(PatchFor(o, reqs), f) == if Touches(reqs, f) then 1 else 0
    ensures AddsFirst(PatchFor(o, reqs) + Emitted(o, req, Touches(reqs, req.f)), f)
  {
    var a, b := PatchFor(o, reqs), Emitted(o, req, Touches(reqs, req.f));
    UsesOwnField(f, req.f, req.key);
    forall i | 0 <= i < |b| && Needs(b[i], f) ensures AddedBefore(a, |a|, f) || AddedBefore(b, i, f) {
      assert req.f == f;
      if Touches(reqs, f) {
        var j := AddedSomewhere(a, f);
      } else {
        assert b[0] == AddEmpty(Root(f));
      }
    }
    AddsFirstAppend(a, b, f);
  }

  /**
   * A patch adds the container of a map once if the object's map was empty and some key is set, and never
   * otherwise; and then every value of that map is written after the container is there.
   */
  lemma {:induction false} ContainerAddedOnce(o: Object, reqs: seq<Request>, f: Field)
    ensures CountAdds(PatchFor(o, reqs), f) == if |Shown(o, f)| == 0 && Touches(reqs, f) then 1 else 0
    ensures |Shown(o, f)| == 0 ==> AddsFirst(PatchFor(o, reqs), f)
  {
    if reqs != [] {
      var front, last := reqs[..|reqs| - 1], reqs[|reqs| - 1];
      assert reqs == front + [last];
      ContainerAddedOnce(o, front, f);
      PatchForSnoc(o, front, last);
      CountAddsAppend(PatchFor(o, front), Emitted(o, last, Touches(front, last.f)), f);
      EmittedAdds(o, last, Touches(front, last.f), f);
      if |Shown(o, f)| == 0 { AddsFirstSnoc(o, front, last, f); }
    }
  }

  // ---------- a server that takes `replace` by the letter ----------

  lemma {:induction false} SetsKeepKeys(o: Object, reqs: seq<Request>, f: Field)
    requires forall i | 0 <= i < |reqs| :: reqs[i].SetKey? && reqs[i].key in Shown(o, reqs[i].f)
    ensures Fold(o, reqs).Some? && Shown(Fold(o, reqs).value, f).Keys == Shown(o, f).Keys
  {
    if reqs != [] {
      var front, last := reqs[..|reqs| - 1], reqs[|reqs| - 1];
      assert forall i | 0 <= i < |front| :: front[i] == reqs[i];
      SetsKeepKeys(o, front, f);
      SetsKeepKeys(o, front, last.f);
    }
  }

  ghost predicate AllPresent(o: Object, reqs: seq<Request>) {
    forall i | 0 <= i < |reqs| :: reqs[i].key in Shown(o, reqs[i].f)
  }

  /** The container is added just before, so it is empty and the key is not there. */
  lemma StrictIntoNew(d: Doc, req: Request)
    requires req.SetKey?
    ensures Apply(Strict, d, [AddEmpty(Root(req.f)), Replace(PathOf(req.f, req.key), req.value)]).None?
  {
    PathResolves(req.f, req.key);
    RootResolves(req.f);
    var add, replace := AddEmpty(Root(req.f)), Replace(PathOf(req.f, req.key), req.value);
    assert [add, replace] == [add] + [replace];
    ApplyAppend(Strict, d, [add], [replace]);
    ApplyOne(Strict, d, add);
    ApplyOne(Strict, Put(d, req.f, map[]), replace);
  }

  /** The container is there or not as the object shows, and `replace` needs the key in it. */
  lemma StrictReplace(d: Doc, now: Object, req: Request)
    requires Represents(d, now) && req.SetKey?
    ensures var ops := [Replace(PathOf(req.f, req.key), req.value)];
            && (Apply(Strict, d, ops).Some? <==> ReadKey(req.key) in Shown(now, req.f))
            && (ReadKey(req.key) in Shown(now, req.f) ==> Apply(Strict, d, ops) == Apply(Upsert, d, ops))
  {
    var replace := Replace(PathOf(req.f, req.key), req.value);
    assert ShowsField(d, now, req.f);
    PathResolves(req.f, req.key);
    ApplyOne(Strict, d, replace);
    ApplyOne(Upsert, d, replace);
  }

  lemma StrictLast(d: Doc, now: Object, o: Object, req: Request, flag: bool)
    requires Represents(d, now) && req.SetKey?
    requires Shown(now, req.f).Keys == Shown(o, req.f).Keys
    ensures Apply(Strict, d, Emitted(o, req, flag)).Some? <==> ReadKey(req.key) in Shown(o, req.f)
    ensures ReadKey(req.key) in Shown(o, req.f) ==> Apply(Strict, d, Emitted(o, req, flag)) == Apply(Upsert, d, Emitted(o, req, flag))
  {
    assert ReadKey(req.key) in Shown(now, req.f) <==> ReadKey(req.key) in Shown(o, req.f);
    var replace := Replace(PathOf(req.f, req.key), req.value);
    if !flag && |Shown(o, req.f)| == 0 {
      assert Emitted(o, req, flag) == [AddEmpty(Root(req.f)), replace];
      StrictIntoNew(d, req);
    } else {
      assert Emitted(o, req, flag) == [replace];
      StrictReplace(d, now, req);
    }
  }

  lemma StrictSnoc(d: Doc, o: Object, front: seq<Request>, last: Request)
    requires Represents(d, o) && last.SetKey?
    requires AllPresent(o, AsRead(front)) && forall i | 0 <= i < |front| :: front[i].SetKey?
    requires Apply(Strict, d, PatchFor(o, front)) == Apply(Upsert, d, PatchFor(o, front))
    ensures Apply(Strict, d, PatchFor(o, front + [last])).Some? <==> ReadKey(last.key) in Shown(o, last.f)
    ensures ReadKey(last.key) in Shown(o, last.f) ==>
              Apply(Strict, d, PatchFor(o, front + [last])) == Apply(Upsert, d, PatchFor(o, front + [last]))
  {
    var emitted := Emitted(o, last, Touches(front, last.f));
    PatchForSnoc(o, front, last);
    ApplyAppend(Strict, d, PatchFor(o, front), emitted);
    ApplyAppend(Upsert, d, PatchFor(o, front), emitted);
    AsReadAt(front);
    SetsKeepKeys(o, AsRead(front), last.f);
    PatchRun(d, o, front);
    StrictLast(Apply(Upsert, d, PatchFor(o, front)).value, Fold(o, AsRead(front)).value, o, last, Touches(front, last.f));
  }

  lemma AllPresentSnoc(o: Object, reqs: seq<Request>, req: Request)
    ensures AllPresent(o, reqs + [req]) <==> AllPresent(o, reqs) && req.key in Shown(o, req.f)
  {
    var all := reqs + [req];
    assert all[|reqs|] == req;
    assert forall i | 0 <= i < |reqs| :: all[i] == reqs[i];
  }

  /**
   * Under section 4.3 of RFC 6902, where the target of `replace` must exist, a patch that sets keys applies
   * exactly when the object already had every key as read; then it does the same as with upserts.
   */
  lemma {:induction false} StrictPatchNeedsKeys(d: Doc, o: Object, reqs: seq<Request>)
    requires Represents(d, o)
    requires forall i | 0 <= i < |reqs| :: reqs[i].SetKey?
    ensures Apply(Strict, d, PatchFor(o, reqs)).Some? <==> AllPresent(o, AsRead(reqs))
    ensures AllPresent(o, AsRead(reqs)) ==> Apply(Strict, d, PatchFor(o, reqs)) == Apply(Upsert, d, PatchFor(o, reqs))
  {
    if reqs != [] {
      var front, last := reqs[..|reqs| - 1], reqs[|reqs| - 1];
      assert reqs == front + [last];
      assert forall i | 0 <= i < |front| :: front[i] == reqs[i];
      AllPresentSnoc(o, AsRead(front), Read(last));
      StrictPatchNeedsKeys(d, o, front);
      if AllPresent(o, AsRead(front)) {
        StrictSnoc(d, o, front, last);
      } else {
        ApplyAppend(Strict, d, PatchFor(o, front), Emitted(o, last, Touches(front, last.f)));
      }
    }
  }
}
