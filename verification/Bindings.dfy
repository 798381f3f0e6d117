/** BandBBS bindings: which remote resource each category of a resource is bound
  to. A binding is stored as text; three formats have existed. */
module Bindings {
  import opened Common
  import opened Text

  type Category = nat
  type Ids = map<Category, string>

  /** The stored text, by what it decodes to. `Bare` is a lone number. */
  datatype Binding = Canonical(ids: Ids) | Historical(ids: Ids) | Bare(id: string) | Garbage(text: string)

  type Table = map<Id, Binding>

  // ------------------------------------------------------ the identity index

  /** What the trigger on the table files under PRIMARY KEY(provider,
    external_id): the values of an object, or the text itself. The values of a
    historical object are objects, filed by their own text. */
  datatype Identity = Plain(text: string) | Object(resourceId: string)

  function Identities(b: Binding): set<Identity> {
    match b
    case Canonical(ids) => set c | c in ids :: Plain(ids[c])
    case Historical(ids) => set c | c in ids :: Object(ids[c])
    case Bare(id) => {Plain(id)}
    case Garbage(text) => {Plain(text)}
  }

  predicate IndexFree(t: Table, r: Id, b: Binding) {
    forall o :: o in t && o != r ==> Identities(t[o]) !! Identities(b)
  }

  ghost predicate Indexed(t: Table) {
    forall r :: r in t ==> IndexFree(t, r, t[r])
  }

  /** Any write of a row; None when the index refuses it. */
  function Store(t: Table, r: Id, b: Binding): Option<Table> {
    if IndexFree(t, r, b) then Some(t[r := b]) else None
  }

  // ------------------------------------------------------------- the checks

  /** parseBandBBSBinding: None stands for its errors. */
  function Parse(row: Option<Binding>, targets: seq<Category>): Option<Ids> {
    match row
    case None => Some(map[])
    case Some(Canonical(ids)) => Some(ids)
    case Some(Historical(ids)) => if exists c :: c in ids && Trim(ids[c]) == "" then None else Some(ids)
    case Some(Bare(id)) => if |targets| == 1 then Some(map[targets[0] := id]) else None
    case Some(Garbage(_)) => None
  }

  /** Reading a missing key of a Go map gives "". */
  function Get(ids: Ids, c: Category): string {
    if c in ids then ids[c] else ""
  }

  /** upsertBandBBSBinding may write: no category of the row is rebound, and no
    other canonical row holds one of the pairs. */
  predicate CanUpsert(t: Table, r: Id, ids: Ids) {
    && ids != map[]
    && (r in t ==> t[r].Canonical? && forall c :: c in t[r].ids ==> Get(ids, c) == t[r].ids[c])
    && forall o :: o in t && o != r && t[o].Canonical? ==> forall c :: c in ids ==> Get(t[o].ids, c) != ids[c]
  }

  // ------------------------------------------------------------------- steps

  /** `existing` is what the publishing attempt read before its remote calls;
    the row may have changed since. */
  datatype Step =
    | Normalize(resource: Id, targets: seq<Category>)
    | Partial(resource: Id, results: Ids)
    | Finish(resource: Id, existing: Ids, results: Ids)

  function Row(t: Table, r: Id): Option<Binding> {
    if r in t then Some(t[r]) else None
  }

  /** json.Unmarshal of the row into a map of strings. A row in another format
    is refused by the upsert that follows. */
  function Decoded(t: Table, r: Id): Ids {
    if r in t && t[r].Canonical? then t[r].ids else map[]
  }

  function Upsert(t: Table, r: Id, ids: Ids): Option<Table> {
    if CanUpsert(t, r, ids) then Store(t, r, Canonical(ids)) else None
  }

  function Attempt(t: Table, step: Step): Option<Table> {
    match step
    case Normalize(r, targets) =>
      var parsed := Parse(Row(t, r), targets);
      if r !in t || parsed == None then None else Store(t, r, Canonical(parsed.value))
    case Partial(r, results) => Upsert(t, r, Decoded(t, r) + results)
    case Finish(r, existing, results) => Upsert(t, r, existing + results)
  }

  function Apply(t: Table, step: Step): Table {
    match Attempt(t, step)
    case None => t
    case Some(u) => u
  }

  function Run(t: Table, steps: seq<Step>): Table
    decreases |steps|
  {
    if steps == [] then t else Apply(Run(t, steps[..|steps| - 1]), steps[|steps| - 1])
  }

  // ---------------------------------------------------- bindings only ever grow

  ghost predicate NonEmpty(ids: Ids) {
    forall c :: c in ids ==> ids[c] != ""
  }

  ghost predicate HasIds(b: Binding) {
    match b
    case Canonical(ids) => NonEmpty(ids)
    case Historical(ids) => NonEmpty(ids)
    case Bare(id) => id != ""
    case Garbage(_) => true
  }

  ghost predicate TableHasIds(t: Table) {
    forall r {:trigger t[r]} :: r in t ==> HasIds(t[r])
  }

  ghost predicate StepHasIds(step: Step) {
    && (step.Partial? ==> NonEmpty(step.results))
    && (step.Finish? ==> NonEmpty(step.existing) && NonEmpty(step.results))
  }

  /** `after` binds whatever `before` binds, to the same remote resources. */
  ghost predicate Extends(before: Binding, after: Binding) {
    match before
    case Canonical(ids) => after.Canonical? && forall c :: c in ids ==> c in after.ids && after.ids[c] == ids[c]
    case Historical(ids) => (after.Canonical? || after.Historical?)
                            && forall c :: c in ids ==> c in after.ids && after.ids[c] == ids[c]
    case Bare(id) => after == before || (after.Canonical? && exists c :: c in after.ids && after.ids[c] == id)
    case Garbage(_) => after == before
  }

  lemma StepExtends(t: Table, step: Step, r: Id)
    requires TableHasIds(t) && StepHasIds(step) && r in t
    ensures r in Apply(t, step) && Extends(t[r], Apply(t, step)[r])
  {
    var u := Apply(t, step);
    if step.Normalize? && step.resource == r && u != t && t[r].Bare? {
      assert u[r].ids[step.targets[0]] == t[r].id;
    }
    if u[r] != t[r] && t[r].Canonical? {
      forall c | c in t[r].ids ensures c in u[r].ids && u[r].ids[c] == t[r].ids[c] { assert HasIds(t[r]); }
    }
  }

  lemma StepKeepsIds(t: Table, step: Step)
    requires TableHasIds(t) && StepHasIds(step)
    ensures TableHasIds(Apply(t, step))
  {
  }

  lemma ExtendsTransitive(a: Binding, b: Binding, c: Binding)
    requires Extends(a, b) && Extends(b, c)
    ensures Extends(a, c)
  {
  }

  /** Whatever the coordinator does to the table, in any order and from reads
    however stale, a bound category keeps its remote resource forever. */
  lemma {:induction false} BindingsOnlyGrow(t: Table, steps: seq<Step>, r: Id)
    requires TableHasIds(t) && r in t && forall i :: 0 <= i < |steps| ==> StepHasIds(steps[i])
    ensures TableHasIds(Run(t, steps)) && r in Run(t, steps) && Extends(t[r], Run(t, steps)[r])
    decreases |steps|
  {
    if steps == [] {
    } else {
      var before := Run(t, steps[..|steps| - 1]);
      BindingsOnlyGrow(t, steps[..|steps| - 1], r);
      StepKeepsIds(before, steps[|steps| - 1]);
      StepExtends(before, steps[|steps| - 1], r);
      ExtendsTransitive(t[r], before[r], Run(t, steps)[r]);
    }
  }

  /** The ids have to be non-empty: an upsert can drop a category, and it drops
    only categories that are bound to the empty id. */
  lemma OnlyEmptyIdsAreDropped(t: Table, r: Id, ids: Ids, c: Category)
    requires r in t && CanUpsert(t, r, ids) && c in t[r].ids
    ensures c !in ids ==> t[r].ids[c] == ""
    ensures var u := map[1 := Canonical(map[7 := "", 8 := "5"])];
            Attempt(u, Finish(1, map[], map[8 := "5"])) == Some(map[1 := Canonical(map[8 := "5"])])
  {
    var u := map[1 := Canonical(map[7 := "", 8 := "5"])];
    var kept: Ids := map[8 := "5"];
    assert map[] + kept == kept && 8 in kept && u[1].ids[7] == "" && u[1].ids[8] == "5";
    assert CanUpsert(u, 1, kept);
    assert u[1 := Canonical(kept)] == map[1 := Canonical(kept)];
  }

  // ------------------------------------------------------ no pair is held twice

  ghost predicate Share(a: Binding, b: Binding) {
    a.Canonical? && b.Canonical? && exists c :: c in a.ids && c in b.ids && a.ids[c] == b.ids[c]
  }

  ghost predicate PairsUnique(t: Table) {
    forall r, o :: r in t && o in t && r != o ==> !Share(t[r], t[o])
  }

  lemma IndexedIsUnique(t: Table)
    requires Indexed(t)
    ensures PairsUnique(t)
  {
    forall r, o | r in t && o in t && r != o ensures !Share(t[r], t[o]) {
      assert IndexFree(t, r, t[r]);
      if t[r].Canonical? && t[o].Canonical? {
        forall c | c in t[r].ids && c in t[o].ids ensures t[r].ids[c] != t[o].ids[c] {
          assert Plain(t[r].ids[c]) in Identities(t[r]);
        }
      }
    }
  }

  lemma StoreKeepsIndexed(t: Table, r: Id, b: Binding)
    requires Indexed(t) && IndexFree(t, r, b)
    ensures Indexed(t[r := b])
  {
  }

  /** No two resources ever hold the same (category, remote id) pair, whatever
    formats the table started out with. */
  lemma {:induction false} NoPairIsShared(t: Table, steps: seq<Step>)
    requires Indexed(t)
    ensures Indexed(Run(t, steps)) && PairsUnique(Run(t, steps))
    decreases |steps|
  {
    if steps == [] {
    } else {
      var before, step := Run(t, steps[..|steps| - 1]), steps[|steps| - 1];
      NoPairIsShared(t, steps[..|steps| - 1]);
      if Attempt(before, step).Some? {
        StoreKeepsIndexed(before, step.resource, Apply(before, step)[step.resource]);
      }
    }
    IndexedIsUnique(Run(t, steps));
  }

  /** The upsert's own check is enough to keep pairs unique, without the index. */
  lemma CheckKeepsUnique(t: Table, r: Id, ids: Ids)
    requires PairsUnique(t) && CanUpsert(t, r, ids)
    ensures PairsUnique(t[r := Canonical(ids)])
  {
  }

  /** The index refuses an upsert that passed the check exactly when another row
    uses one of the remote ids under a different category or in old format. */
  lemma IndexIsStricter(t: Table, r: Id, ids: Ids)
    requires CanUpsert(t, r, ids)
    ensures Upsert(t, r, ids) == None <==>
            exists o, c :: o in t && o != r && c in ids && Plain(ids[c]) in Identities(t[o])
                           && !(t[o].Canonical? && Get(t[o].ids, c) == ids[c])
  {
  }

  /** A remote id is in use by a row: under some category, as a lone number, or as
    the whole text. */
  ghost predicate Mentions(b: Binding, id: string) {
    || (b.Canonical? && exists c :: c in b.ids && b.ids[c] == id)
    || (b.Bare? && b.id == id)
    || (b.Garbage? && b.text == id)
  }

  /** An upsert goes through exactly when it has a category, keeps every id that
    the row is bound to, and brings no id that another row uses. */
  lemma UpsertIff(t: Table, r: Id, ids: Ids)
    ensures Upsert(t, r, ids).Some? <==>
            && (exists c :: c in ids)
            && (r in t ==>
                  && t[r].Canonical?
                  && forall c :: c in t[r].ids && t[r].ids[c] != "" ==> c in ids && ids[c] == t[r].ids[c])
            && (r in t ==> forall c :: c in t[r].ids && t[r].ids[c] == "" && c in ids ==> ids[c] == "")
            && (forall o, c :: o in t && o != r && c in ids ==> !Mentions(t[o], ids[c]))
            && (forall o, c :: o in t && o != r && t[o].Canonical? && c in ids && c !in t[o].ids ==> ids[c] != "")
    ensures Upsert(t, r, ids).Some? ==> Upsert(t, r, ids).value == t[r := Canonical(ids)]
  {
    forall o, c | o in t && o != r && c in ids ensures Plain(ids[c]) in Identities(t[o]) <==> Mentions(t[o], ids[c]) { }
    forall o | o in t && o != r
      ensures Identities(t[o]) !! Identities(Canonical(ids)) <==> forall c :: c in ids ==> !Mentions(t[o], ids[c])
    {
      forall c | c in ids ensures Plain(ids[c]) in Identities(Canonical(ids)) { }
    }
    if exists c :: c in ids { assert ids != map[]; } else { assert ids == map[]; }
  }

  /** An old row is rewritten exactly when it can be read and brings no id that
    another row uses; what it says is kept. A historical row can be read unless an
    id is blank, a lone number if there is one category to bind it to. */
  lemma NormalizeIff(t: Table, r: Id, targets: seq<Category>)
    requires r in t
    ensures Parse(Row(t, r), targets).Some? <==>
            || t[r].Canonical?
            || (t[r].Historical? && forall c :: c in t[r].ids ==> Trim(t[r].ids[c]) != "")
            || (t[r].Bare? && |targets| == 1)
    ensures var ids := Parse(Row(t, r), targets);
            Attempt(t, Normalize(r, targets)).Some? <==>
            ids.Some? && forall o, c :: o in t && o != r && c in ids.value ==> !Mentions(t[o], ids.value[c])
    ensures Attempt(t, Normalize(r, targets)).Some? ==>
              && Extends(t[r], Attempt(t, Normalize(r, targets)).value[r])
              && forall o :: o in t && o != r ==> Attempt(t, Normalize(r, targets)).value[o] == t[o]
  {
    var parsed := Parse(Row(t, r), targets);
    if parsed.Some? {
      var ids := parsed.value;
      forall o, c | o in t && o != r && c in ids
        ensures Plain(ids[c]) in Identities(t[o]) <==> Mentions(t[o], ids[c]) { }
      forall o | o in t && o != r
        ensures Identities(t[o]) !! Identities(Canonical(ids)) <==> forall c :: c in ids ==> !Mentions(t[o], ids[c])
      {
        forall c | c in ids ensures Plain(ids[c]) in Identities(Canonical(ids)) { }
      }
      if t[r].Bare? { assert ids[targets[0]] == t[r].id; }
    }
  }

  /** Rewriting an old row to the canonical format has no check of its own.
    Without the index it would share a pair exactly when another canonical row
    already holds one of the pairs that the old row stands for. */
  lemma NormalizeNeedsIndex(t: Table, r: Id, ids: Ids)
    requires PairsUnique(t) && r in t
    ensures PairsUnique(t[r := Canonical(ids)]) <==> forall o :: o in t && o != r ==> !Share(t[o], Canonical(ids))
  {
    var u := t[r := Canonical(ids)];
    if PairsUnique(u) {
      forall o | o in t && o != r ensures !Share(t[o], Canonical(ids)) { assert !Share(u[o], u[r]); }
    }
    if forall o :: o in t && o != r ==> !Share(t[o], Canonical(ids)) {
      forall a, b | a in u && b in u && a != b ensures !Share(u[a], u[b]) {
        if a != r && b != r { assert !Share(t[a], t[b]); }
        else if a == r { assert !Share(t[b], Canonical(ids)); }
        else { assert !Share(t[a], Canonical(ids)); }
      }
    }
  }

  /** Such a table: resource 1 still has the bare number that resource 2 is bound
    to. Only the index stops the rewrite, and it refuses the table itself. */
  lemma BareRowCollides()
    ensures var t := map[1 := Bare("5"), 2 := Canonical(map[7 := "5"])];
            && PairsUnique(t) && !Indexed(t)
            && Parse(Some(t[1]), [7]) == Some(map[7 := "5"])
            && !PairsUnique(t[1 := Canonical(map[7 := "5"])])
            && Attempt(t, Normalize(1, [7])) == None
  {
    var t := map[1 := Bare("5"), 2 := Canonical(map[7 := "5"])];
    var u := t[1 := Canonical(map[7 := "5"])];
    assert u[1].ids[7] == u[2].ids[7] && Share(u[1], u[2]);
    assert t[2].ids[7] == "5";
    assert Plain("5") in Identities(t[2]) && Plain("5") in Identities(t[1]);
    assert Plain(map[7 := "5"][7]) in Identities(Canonical(map[7 := "5"]));
    assert !IndexFree(t, 1, t[1]) && !IndexFree(t, 1, Canonical(map[7 := "5"]));
  }

  // ------------------------------------------------------- the code, in order

  /** The table behind publishBandBBS, finish and recordBandBBSPartial. */
  class BindingTable {
    var rows: Table

    constructor ()
      ensures rows == map[]
    {
      rows := map[];
    }

    /** INSERT or UPDATE of one row, with the index trigger. */
    method Write(r: Id, b: Binding) returns (ok: bool)
      modifies this
      ensures ok <==> Store(old(rows), r, b).Some?
      ensures rows == if ok then Store(old(rows), r, b).value else old(rows)
    {
      ok := IndexFree(rows, r, b);
      if ok {
        rows := rows[r := b];
      }
    }

    /** The rewrite to the canonical format before an attempt. */
    method NormalizeRow(r: Id, targets: seq<Category>) returns (existing: Option<Ids>)
      modifies this
      ensures rows == Apply(old(rows), Normalize(r, targets))
      ensures existing.Some? ==> existing == Parse(Row(old(rows), r), targets)
      ensures existing.None? <==>
              Parse(Row(old(rows), r), targets) == None
              || (r in old(rows) && Attempt(old(rows), Normalize(r, targets)) == None && !old(rows)[r].Canonical?)
    {
      existing := Parse(Row(rows, r), targets);
      if existing.Some? && r in rows && rows[r] != Canonical(existing.value) {
        var ok := Write(r, Canonical(existing.value));
        if !ok {
          existing := None;
        }
      }
    }

    /** upsertBandBBSBinding. */
    method UpsertRow(r: Id, ids: Ids) returns (ok: bool)
      modifies this
      ensures ok <==> Upsert(old(rows), r, ids).Some?
      ensures rows == if ok then Upsert(old(rows), r, ids).value else old(rows)
    {
      if ids == map[] || (r in rows && !rows[r].Canonical?) {
        return false;
      }
      if r in rows {
        var todo := rows[r].ids.Keys;
        while todo != {}
          invariant todo <= rows[r].ids.Keys && rows == old(rows)
          invariant forall c :: c in rows[r].ids && c !in todo ==> Get(ids, c) == rows[r].ids[c]
          decreases |todo|
        {
          var c :| c in todo;
          if Get(ids, c) != rows[r].ids[c] {
            return false;
          }
          todo := todo - {c};
        }
      }
      var others := rows.Keys - {r};
      while others != {}
        invariant others <= rows.Keys - {r} && rows == old(rows)
        invariant forall o, c :: o in rows && o != r && o !in others && rows[o].Canonical? && c in ids ==>
                                   Get(rows[o].ids, c) != ids[c]
        decreases |others|
      {
        var o :| o in others;
        if rows[o].Canonical? && exists c :: c in ids && Get(rows[o].ids, c) == ids[c] {
          return false;
        }
        others := others - {o};
      }
      ok := Write(r, Canonical(ids));
    }

    /** The binding part of recordBandBBSPartial: merge the categories that were
      reached into what the row holds now. */
    method RecordPartial(r: Id, results: Ids) returns (ok: bool)
      modifies this
      ensures rows == Apply(old(rows), Partial(r, results))
      ensures ok <==> Attempt(old(rows), Partial(r, results)).Some?
    {
      var merged := Overlay(Decoded(rows, r), results);
      ok := UpsertRow(r, merged);
    }

    /** The binding part of a successful publication: what was read before it,
      overlaid with what it returned. */
    method FinishBinding(r: Id, existing: Ids, results: Ids) returns (ok: bool)
      modifies this
      ensures rows == Apply(old(rows), Finish(r, existing, results))
      ensures ok <==> Attempt(old(rows), Finish(r, existing, results)).Some?
    {
      var canonical := Overlay(existing, results);
      ok := UpsertRow(r, canonical);
    }
  }

  /** The loop that copies one map over another. */
  method Overlay(base: Ids, results: Ids) returns (merged: Ids)
    ensures merged == base + results
  {
    merged := base;
    var todo := results.Keys;
    while todo != {}
      invariant todo <= results.Keys
      invariant merged.Keys == base.Keys + (results.Keys - todo)
      invariant forall c :: c in merged ==> merged[c] == if c in results && c !in todo then results[c] else base[c]
      decreases |todo|
    {
      var c :| c in todo;
      merged := merged[c := results[c]];
      todo := todo - {c};
    }
  }
}
