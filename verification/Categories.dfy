/** The category table: a materialised path beside parent pointers, changed by creates and guarded deletes. */
module Categories {
  import opened Common
  import opened Text
  import opened Labels

  const MAX_CATEGORY_DEPTH := 10
  const MAX_SLUG_COLUMN := 255
  const ANCESTOR_LIMIT := 50

  datatype Category = Category(slug: string, path: string, parent: Option<nat>, depth: nat)

  type Rows = map<nat, Category>

  datatype CategoryError =
    | BadName(error: LabelError)
    | NotFound
    | TooDeep
    | Rejected                  // a database constraint
    | HasChildren
    | HasProducts

  /** References from the products table: products in use, and soft-deleted ones that still hold the key. */
  datatype Products = Products(live: bool, deleted: bool)

  // ── Operations ──────────────────────────────────────────────

  predicate HasChild(rows: Rows, id: nat) {
    exists c | c in rows :: rows[c].parent == Some(id)
  }

  predicate PathTaken(rows: Rows, path: string) {
    exists c | c in rows :: rows[c].path == path
  }

  predicate SlugTaken(rows: Rows, slug: string) {
    exists c | c in rows :: rows[c].slug == slug
  }

  /** The row that a request stands for: path and depth follow from the parent. */
  function NewRow(rows: Rows, tag: string, slug: string, parent: Option<nat>): Result<Category, CategoryError> {
    match parent
    case None => Ok(Category(slug, tag, None, 0))
    case Some(p) =>
      if p !in rows then Err(NotFound)
      else if rows[p].depth + 1 > MAX_CATEGORY_DEPTH then Err(TooDeep)
      else Ok(Category(slug, rows[p].path + ['.'] + tag, parent, rows[p].depth + 1))
  }

  function Create(u: Unicode, rows: Rows, id: nat, name: string, slug: Option<string>,
                  parent: Option<nat>): Result<Rows, CategoryError> {
    var trimmed := Trim(u, name);
    if trimmed == [] then Err(BadName(Empty))
    else if u.byteLen(trimmed) > 255 then Err(BadName(TooLong))
    else
      match if slug.Some? then NewSlug(u, slug.value) else SlugFromName(u, trimmed)
      case Err(e) => Err(BadName(e))
      case Ok(s) =>
        match LabelFromName(u, trimmed)
        case Err(e) => Err(BadName(e))
        case Ok(tag) =>
          match NewRow(rows, tag, s, parent)
          case Err(e) => Err(e)
          case Ok(row) =>
            if |s| > MAX_SLUG_COLUMN || id in rows || PathTaken(rows, row.path) || SlugTaken(rows, s) then Err(Rejected)
            else Ok(rows[id := row])
  }

  /** The explicit guards, then the foreign key of soft-deleted products. */
  function Delete(rows: Rows, id: nat, products: Products): Result<Rows, CategoryError> {
    if id !in rows then Err(NotFound)
    else if HasChild(rows, id) then Err(HasChildren)
    else if products.live then Err(HasProducts)
    else if products.deleted then Err(Rejected)
    else Ok(rows - {id})
  }

  class CategoryTable {
    var rows: Rows

    constructor ()
      ensures rows == map[]
    {
      rows := map[];
    }

    method CreateCategory(u: Unicode, id: nat, name: string, slug: Option<string>, parent: Option<nat>)
      returns (r: Result<(), CategoryError>)
      modifies this
      ensures r.Ok? ==> Create(u, old(rows), id, name, slug, parent) == Ok(rows)
      ensures r.Err? ==> rows == old(rows) && Create(u, rows, id, name, slug, parent) == Err(r.error)
    {
      var trimmed := Trim(u, name);
      if trimmed == [] {
        return Err(BadName(Empty));
      }
      if u.byteLen(trimmed) > 255 {
        return Err(BadName(TooLong));
      }
      var slugged := if slug.Some? then NewSlug(u, slug.value) else SlugFromName(u, trimmed);
      if slugged.Err? {
        return Err(BadName(slugged.error));
      }
      var tagged := LabelFromName(u, trimmed);
      if tagged.Err? {
        return Err(BadName(tagged.error));
      }
      var path, depth := tagged.value, 0;
      if parent.Some? {
        if parent.value !in rows {
          return Err(NotFound);
        }
        depth := rows[parent.value].depth + 1;
        if depth > MAX_CATEGORY_DEPTH {
          return Err(TooDeep);
        }
        path := rows[parent.value].path + ['.'] + tagged.value;
      }
      r := Insert(id, Category(slugged.value, path, parent, depth));
    }

    /** The INSERT with the table's unique and length constraints. */
    method Insert(id: nat, row: Category) returns (r: Result<(), CategoryError>)
      modifies this
      ensures r.Ok? <==>
                && |row.slug| <= MAX_SLUG_COLUMN && id !in old(rows)
                && !PathTaken(old(rows), row.path) && !SlugTaken(old(rows), row.slug)
      ensures r.Ok? ==> rows == old(rows)[id := row]
      ensures r.Err? ==> r == Err(Rejected) && rows == old(rows)
    {
      if |row.slug| > MAX_SLUG_COLUMN || id in rows || PathTaken(rows, row.path) || SlugTaken(rows, row.slug) {
        return Err(Rejected);
      }
      rows := rows[id := row];
      return Ok(());
    }

    method DeleteCategory(id: nat, products: Products) returns (r: Result<(), CategoryError>)
      modifies this
      ensures r.Ok? ==> Delete(old(rows), id, products) == Ok(rows)
      ensures r.Err? ==> rows == old(rows) && Delete(rows, id, products) == Err(r.error)
    {
      if id !in rows {
        return Err(NotFound);
      }
      if HasChild(rows, id) {
        return Err(HasChildren);
      }
      if products.live {
        return Err(HasProducts);
      }
      if products.deleted {
        return Err(Rejected);
      }
      rows := rows - {id};
      return Ok(());
    }
  }

  // ── The slug column ─────────────────────────────────────────

  /** The slug a create stores: the given one, or one generated from the name. */
  function SlugOf(u: Unicode, name: string, slug: Option<string>): Result<string, LabelError> {
    if slug.Some? then NewSlug(u, slug.value) else SlugFromName(u, Trim(u, name))
  }

  /** Name, slug, label and parent pass, and nothing in the table is in the way. */
  predicate OtherwiseFine(u: Unicode, rows: Rows, id: nat, name: string, slug: Option<string>, parent: Option<nat>) {
    && Trim(u, name) != [] && u.byteLen(Trim(u, name)) <= 255
    && SlugOf(u, name, slug).Ok? && LabelFromName(u, Trim(u, name)).Ok?
    && var s := SlugOf(u, name, slug).value;
       var row := NewRow(rows, LabelFromName(u, Trim(u, name)).value, s, parent);
       row.Ok? && id !in rows && !PathTaken(rows, row.value.path) && !SlugTaken(rows, s)
  }

  /** A create that is fine otherwise is refused exactly when its slug, though valid, exceeds the column. */
  lemma RefusedExactlyForLongSlug(u: Unicode, rows: Rows, id: nat, name: string, slug: Option<string>,
                                  parent: Option<nat>)
    requires Sane(u) && OtherwiseFine(u, rows, id, name, slug, parent)
    ensures Create(u, rows, id, name, slug, parent) == Err(Rejected)
       <==> |SlugOf(u, name, slug).value| > MAX_SLUG_COLUMN
    ensures Create(u, rows, id, name, slug, parent).Ok? <==> |SlugOf(u, name, slug).value| <= MAX_SLUG_COLUMN
    ensures IsSlug(SlugOf(u, name, slug).value) && |SlugOf(u, name, slug).value| <= 500
  {
    SlugOfIsValid(u, name, slug);
    CreateWhenFine(u, rows, id, name, slug, parent);
  }

  lemma SlugOfIsValid(u: Unicode, name: string, slug: Option<string>)
    requires Sane(u) && SlugOf(u, name, slug).Ok?
    ensures IsSlug(SlugOf(u, name, slug).value) && |SlugOf(u, name, slug).value| <= 500
  {
    assert Plain(SlugOf(u, name, slug).value);
  }

  lemma CreateWhenFine(u: Unicode, rows: Rows, id: nat, name: string, slug: Option<string>, parent: Option<nat>)
    requires OtherwiseFine(u, rows, id, name, slug, parent)
    ensures Create(u, rows, id, name, slug, parent).Ok? <==> |SlugOf(u, name, slug).value| <= MAX_SLUG_COLUMN
    ensures Create(u, rows, id, name, slug, parent).Err? ==> Create(u, rows, id, name, slug, parent) == Err(Rejected)
  {
  }

  lemma BooksIsALabel(u: Unicode)
    requires Sane(u)
    ensures Trim(u, "books") == "books" && u.byteLen("books") == 5 && LabelFromName(u, "books") == Ok("books")
  {
    PlainSurvives(u, "books", '_');
    GeneratedLabelsAreFixed(u, "books");
  }

  /** Every valid slug longer than the column is such an input: the value object takes it, the table does not. */
  lemma ValidSlugsBeyondTheColumn(u: Unicode, s: string)
    requires Sane(u) && IsSlug(s) && |s| <= 500
    ensures NewSlug(u, s) == Ok(s)
    ensures Create(u, map[], 0, "books", Some(s), None).Ok? <==> |s| <= MAX_SLUG_COLUMN
    ensures |s| > MAX_SLUG_COLUMN ==> Create(u, map[], 0, "books", Some(s), None) == Err(Rejected)
  {
    SlugsAreFixed(u, s);
    BooksIsALabel(u);
    RefusedExactlyForLongSlug(u, map[], 0, "books", Some(s), None);
  }

  /** And there is one of 256 characters. */
  lemma LongSlugExists(u: Unicode) returns (s: string)
    requires Sane(u)
    ensures |s| == 256 && NewSlug(u, s) == Ok(s) && Create(u, map[], 0, "books", Some(s), None) == Err(Rejected)
  {
    s := seq(256, i => 'a');
    ValidSlugsBeyondTheColumn(u, s);
  }

  // ── What a create and a delete decide ───────────────────────

  /**
   * A create succeeds exactly when nothing is in the way and the slug fits its column. It then adds one row:
   * the slug, the parent, one level more than the parent's, and the parent's path with the label added.
   */
  lemma CreatedExactly(u: Unicode, rows: Rows, id: nat, name: string, slug: Option<string>, parent: Option<nat>)
    ensures Create(u, rows, id, name, slug, parent).Ok? <==>
            OtherwiseFine(u, rows, id, name, slug, parent) && |SlugOf(u, name, slug).value| <= 255
    ensures Create(u, rows, id, name, slug, parent).Ok? ==>
              var rows' := Create(u, rows, id, name, slug, parent).value;
              var tag := LabelFromName(u, Trim(u, name)).value;
              && id !in rows && rows'.Keys == rows.Keys + {id}
              && (forall c | c in rows :: rows'[c] == rows[c])
              && SlugOf(u, name, slug) == Ok(rows'[id].slug) && rows'[id].parent == parent
              && (parent == None ==> rows'[id].depth == 0 && rows'[id].path == tag)
              && (parent.Some? ==>
                    && parent.value in rows && rows'[id].depth == rows[parent.value].depth + 1 <= 10
                    && rows'[id].path == rows[parent.value].path + ['.'] + tag)
  {
  }

  /** A refused create says what was wrong first: name, slug or label, then the parent, then the depth. */
  lemma RefusedCreate(u: Unicode, rows: Rows, id: nat, name: string, slug: Option<string>, parent: Option<nat>)
    ensures var r := Create(u, rows, id, name, slug, parent);
            var named := Trim(u, name) != [] && u.byteLen(Trim(u, name)) <= 255
                         && SlugOf(u, name, slug).Ok? && LabelFromName(u, Trim(u, name)).Ok?;
            && (r.Err? && r.error.BadName? <==> !named)
            && (r == Err(NotFound) <==> named && parent.Some? && parent.value !in rows)
            && (r == Err(TooDeep) <==> named && parent.Some? && parent.value in rows && rows[parent.value].depth >= 10)
            && r != Err(HasChildren) && r != Err(HasProducts)
  {
  }

  /** A category goes exactly when it has neither children nor products, and nothing else goes with it. */
  lemma DeletedExactly(rows: Rows, id: nat, products: Products)
    ensures Delete(rows, id, products).Ok? <==>
            && id in rows && !products.live && !products.deleted
            && forall c | c in rows :: rows[c].parent != Some(id)
    ensures Delete(rows, id, products).Ok? ==>
              var rows' := Delete(rows, id, products).value;
              rows'.Keys == rows.Keys - {id} && forall c | c in rows' :: rows'[c] == rows[c]
    ensures Delete(rows, id, products) == Err(NotFound) <==> id !in rows
    ensures Delete(rows, id, products) == Err(HasChildren) <==>
            id in rows && exists c :: c in rows && rows[c].parent == Some(id)
    ensures Delete(rows, id, products) == Err(HasProducts) ==> products.live
  {
    assert (rows - {id}).Keys == rows.Keys - {id};
  }

  // ── The tree invariant ──────────────────────────────────────

  function LabelsOf(path: string): seq<string> {
    Split(path, '.')
  }

  predicate RowOk(rows: Rows, id: nat)
    requires id in rows
  {
    var row := rows[id];
    && |LabelsOf(row.path)| == row.depth + 1
    && row.depth <= MAX_CATEGORY_DEPTH
    && match row.parent
       case None => row.depth == 0
       case Some(p) =>
         && p in rows
         && row.depth == rows[p].depth + 1
         && LabelsOf(rows[p].path) == LabelsOf(row.path)[..row.depth]
  }

  predicate UniquePaths(rows: Rows) {
    forall a, b | a in rows && b in rows && rows[a].path == rows[b].path :: a == b
  }

  predicate TreeOk(rows: Rows) {
    UniquePaths(rows) && forall id {:trigger RowOk(rows, id)} | id in rows :: RowOk(rows, id)
  }

  lemma NewRowOk(rows: Rows, id: nat, tag: string, slug: string, parent: Option<nat>)
    requires TreeOk(rows) && id !in rows && '.' !in tag && NewRow(rows, tag, slug, parent).Ok?
    ensures RowOk(rows[id := NewRow(rows, tag, slug, parent).value], id)
  {
    if parent.Some? {
      assert RowOk(rows, parent.value);
      SplitSnoc(rows[parent.value].path, tag, '.');
    } else {
      SplitWhole(tag, '.');
    }
  }

  lemma CreateKeepsTree(u: Unicode, rows: Rows, id: nat, name: string, slug: Option<string>, parent: Option<nat>)
    requires Sane(u) && TreeOk(rows) && Create(u, rows, id, name, slug, parent).Ok?
    ensures TreeOk(Create(u, rows, id, name, slug, parent).value)
  {
    var rows' := Create(u, rows, id, name, slug, parent).value;
    var tag := LabelFromName(u, Trim(u, name)).value;
    GenerationMakesLabels(u, Trim(u, name));
    LabelHasNoDot(tag);
    NewRowOk(rows, id, tag, rows'[id].slug, parent);
    AddedRowKeepsTree(rows, id, rows'[id]);
  }

  lemma AddedRowKeepsTree(rows: Rows, id: nat, row: Category)
    requires TreeOk(rows) && id !in rows && !PathTaken(rows, row.path) && RowOk(rows[id := row], id)
    ensures TreeOk(rows[id := row])
  {
    var rows' := rows[id := row];
    forall c | c in rows' ensures RowOk(rows', c) {
      if c != id {
        assert RowOk(rows, c);
      }
    }
  }

  lemma DeleteKeepsTree(rows: Rows, id: nat, products: Products)
    requires TreeOk(rows) && Delete(rows, id, products).Ok?
    ensures TreeOk(Delete(rows, id, products).value)
  {
    var rows' := Delete(rows, id, products).value;
    forall c | c in rows' ensures RowOk(rows', c) {
      assert RowOk(rows, c);
      assert rows[c].parent != Some(id);
    }
  }

  // ── Parent chains ───────────────────────────────────────────

  /** The chain of parent pointers, root first, ending in the category itself. */
  function ParentChain(rows: Rows, id: nat): (chain: seq<nat>)
    requires TreeOk(rows) && id in rows
    ensures |chain| == rows[id].depth + 1
    decreases rows[id].depth
  {
    assert RowOk(rows, id);
    match rows[id].parent
    case None => [id]
    case Some(p) => ParentChain(rows, p) + [id]
  }

  /** The `@>` operator of ltree: the labels of one path begin the other. */
  predicate PathAbove(a: string, b: string) {
    LabelsOf(a) <= LabelsOf(b)
  }

  lemma {:induction false} ChainMembers(rows: Rows, id: nat, k: nat)
    requires TreeOk(rows) && id in rows && k <= rows[id].depth
    ensures var a := ParentChain(rows, id)[k];
            && a in rows && rows[a].depth == k && k < |LabelsOf(rows[id].path)|
            && LabelsOf(rows[a].path) == LabelsOf(rows[id].path)[..k + 1]
    decreases rows[id].depth
  {
    assert RowOk(rows, id);
    if k < rows[id].depth {
      var p := rows[id].parent.value;
      ChainMembers(rows, p, k);
      assert LabelsOf(rows[id].path)[..rows[id].depth][..k + 1] == LabelsOf(rows[id].path)[..k + 1];
    } else {
      assert ParentChain(rows, id)[k] == id;
      assert LabelsOf(rows[id].path)[..k + 1] == LabelsOf(rows[id].path);
    }
  }

  lemma SamePath(rows: Rows, a: nat, b: nat)
    requires TreeOk(rows) && a in rows && b in rows && LabelsOf(rows[a].path) == LabelsOf(rows[b].path)
    ensures a == b
  {
    SplitIsInjective(rows[a].path, rows[b].path, '.');
  }

  /** Path order and parent pointers agree: `a` is on the chain of `id` exactly when its path is above. */
  lemma PathsAgreeWithPointers(rows: Rows, id: nat, a: nat)
    requires TreeOk(rows) && id in rows && a in rows
    ensures PathAbove(rows[a].path, rows[id].path) <==> a in ParentChain(rows, id)
  {
    var chain := ParentChain(rows, id);
    if a in chain {
      var k :| 0 <= k < |chain| && chain[k] == a;
      ChainMembers(rows, id, k);
    }
    if PathAbove(rows[a].path, rows[id].path) {
      assert RowOk(rows, a) && RowOk(rows, id);
      var k := rows[a].depth;
      ChainMembers(rows, id, k);
      SamePath(rows, a, chain[k]);
    }
  }

  // ── Histories ───────────────────────────────────────────────

  datatype Op =
    | CreateOp(id: nat, name: string, slug: Option<string>, parent: Option<nat>)
    | DeleteOp(id: nat, products: Products)

  function Apply(u: Unicode, rows: Rows, op: Op): Rows {
    var r := match op
      case CreateOp(id, name, slug, parent) => Create(u, rows, id, name, slug, parent)
      case DeleteOp(id, products) => Delete(rows, id, products);
    if r.Ok? then r.value else rows
  }

  function Run(u: Unicode, ops: seq<Op>): Rows {
    if ops == [] then map[] else Apply(u, Run(u, ops[..|ops| - 1]), ops[|ops| - 1])
  }

  lemma {:induction false} RunKeepsTree(u: Unicode, ops: seq<Op>)
    requires Sane(u)
    ensures TreeOk(Run(u, ops))
  {
    if ops != [] {
      var rows := Run(u, ops[..|ops| - 1]);
      RunKeepsTree(u, ops[..|ops| - 1]);
      match ops[|ops| - 1] {
        case CreateOp(id, name, slug, parent) =>
          if Create(u, rows, id, name, slug, parent).Ok? {
            CreateKeepsTree(u, rows, id, name, slug, parent);
          }
        case DeleteOp(id, products) =>
          if Delete(rows, id, products).Ok? {
            DeleteKeepsTree(rows, id, products);
          }
      }
    }
  }

  /** After any history depth is the number of dots in the path, and at most ten. */
  lemma DepthIsDots(u: Unicode, ops: seq<Op>, id: nat)
    requires Sane(u) && id in Run(u, ops)
    ensures Run(u, ops)[id].depth == Count(Run(u, ops)[id].path, '.') <= MAX_CATEGORY_DEPTH
  {
    RunKeepsTree(u, ops);
    assert RowOk(Run(u, ops), id);
    SplitCounts(Run(u, ops)[id].path, '.');
  }

  // ── Stored slugs and labels ─────────────────────────────────

  predicate GeneratedPath(path: string) {
    forall k :: 0 <= k < |LabelsOf(path)| ==> GeneratedLabel(LabelsOf(path)[k])
  }

  predicate StoredOk(row: Category) {
    IsSlug(row.slug) && |row.slug| <= 255 && GeneratedPath(row.path)
  }

  predicate UniqueSlugs(rows: Rows) {
    forall a, b | a in rows && b in rows && rows[a].slug == rows[b].slug :: a == b
  }

  predicate AllStoredOk(rows: Rows) {
    UniqueSlugs(rows) && forall id | id in rows :: StoredOk(rows[id])
  }

  lemma LongerPath(path: string, tag: string)
    requires GeneratedLabel(tag)
    ensures GeneratedPath(tag) && (GeneratedPath(path) ==> GeneratedPath(path + ['.'] + tag))
  {
    LabelHasNoDot(tag);
    SplitWhole(tag, '.');
    SplitSnoc(path, tag, '.');
    var longer := LabelsOf(path + ['.'] + tag);
    forall k | 0 <= k < |longer| && GeneratedPath(path) ensures GeneratedLabel(longer[k]) {
      assert longer[k] == if k < |LabelsOf(path)| then LabelsOf(path)[k] else tag;
    }
  }

  lemma AddedIsStoredOk(rows: Rows, id: nat, row: Category)
    requires AllStoredOk(rows) && StoredOk(row) && !SlugTaken(rows, row.slug) && id !in rows
    ensures AllStoredOk(rows[id := row])
  {
  }

  lemma CreatedSlug(u: Unicode, rows: Rows, id: nat, name: string, slug: Option<string>, parent: Option<nat>)
    requires Sane(u) && Create(u, rows, id, name, slug, parent).Ok?
    ensures var rows' := Create(u, rows, id, name, slug, parent).value;
            && id !in rows && id in rows' && rows' == rows[id := rows'[id]]
            && IsSlug(rows'[id].slug) && |rows'[id].slug| <= 255 && !SlugTaken(rows, rows'[id].slug)
  {
    CreatedExactly(u, rows, id, name, slug, parent);
    SlugOfIsValid(u, name, slug);
  }

  lemma CreatedPath(u: Unicode, rows: Rows, id: nat, name: string, slug: Option<string>, parent: Option<nat>)
    requires Sane(u) && AllStoredOk(rows) && Create(u, rows, id, name, slug, parent).Ok?
    ensures id in Create(u, rows, id, name, slug, parent).value
    ensures GeneratedPath(Create(u, rows, id, name, slug, parent).value[id].path)
  {
    CreatedExactly(u, rows, id, name, slug, parent);
    GenerationMakesLabels(u, Trim(u, name));
    LongerPath(if parent == None then [] else rows[parent.value].path, LabelFromName(u, Trim(u, name)).value);
    assert parent.Some? ==> StoredOk(rows[parent.value]);
  }

  lemma CreatedIsStoredOk(u: Unicode, rows: Rows, id: nat, name: string, slug: Option<string>, parent: Option<nat>)
    requires Sane(u) && AllStoredOk(rows) && Create(u, rows, id, name, slug, parent).Ok?
    ensures AllStoredOk(Create(u, rows, id, name, slug, parent).value)
  {
    CreatedSlug(u, rows, id, name, slug, parent);
    CreatedPath(u, rows, id, name, slug, parent);
    AddedIsStoredOk(rows, id, Create(u, rows, id, name, slug, parent).value[id]);
  }

  lemma {:induction false} RunStoredOk(u: Unicode, ops: seq<Op>)
    requires Sane(u)
    ensures AllStoredOk(Run(u, ops))
  {
    if ops != [] {
      var rows := Run(u, ops[..|ops| - 1]);
      RunStoredOk(u, ops[..|ops| - 1]);
      var op := ops[|ops| - 1];
      if op.CreateOp? && Create(u, rows, op.id, op.name, op.slug, op.parent).Ok? {
        CreatedIsStoredOk(u, rows, op.id, op.name, op.slug, op.parent);
      }
    }
  }

  /**
   * After any history every stored slug is valid, fits its column and names one category, every label of
   * every path is one that generation produces, and a path names one category.
   */
  lemma StoredAfterAnyHistory(u: Unicode, ops: seq<Op>, a: nat, b: nat)
    requires Sane(u) && a in Run(u, ops) && b in Run(u, ops)
    ensures StoredOk(Run(u, ops)[a])
    ensures a == b <==> Run(u, ops)[a].slug == Run(u, ops)[b].slug
    ensures a == b <==> Run(u, ops)[a].path == Run(u, ops)[b].path
  {
    RunStoredOk(u, ops);
    RunKeepsTree(u, ops);
  }

  /** An answer to `WHERE path @> p ORDER BY depth LIMIT 50`: no row beyond the limit is cut unless it is full. */
  predicate AncestorAnswer(rows: Rows, path: string, answer: seq<nat>) {
    && (forall i :: 0 <= i < |answer| ==> answer[i] in rows && PathAbove(rows[answer[i]].path, path))
    && (forall i, j :: 0 <= i < j < |answer| ==>
          answer[i] != answer[j] && rows[answer[i]].depth <= rows[answer[j]].depth)
    && |answer| <= ANCESTOR_LIMIT
    && (|answer| < ANCESTOR_LIMIT ==> forall a | a in rows && PathAbove(rows[a].path, path) :: a in answer)
  }

  /** Matching rows have distinct depths, so the answer is sorted strictly. */
  lemma AnswerDepthsRise(rows: Rows, id: nat, answer: seq<nat>, i: nat, j: nat)
    requires TreeOk(rows) && id in rows && AncestorAnswer(rows, rows[id].path, answer) && i < j < |answer|
    ensures rows[answer[i]].depth < rows[answer[j]].depth <= rows[id].depth
  {
    var a, b := answer[i], answer[j];
    assert RowOk(rows, a) && RowOk(rows, b) && RowOk(rows, id);
    if rows[a].depth == rows[b].depth {
      assert LabelsOf(rows[a].path) == LabelsOf(rows[id].path)[..rows[a].depth + 1] == LabelsOf(rows[b].path);
      SamePath(rows, a, b);
    }
  }

  lemma AboveIsNoDeeper(rows: Rows, a: nat, id: nat)
    requires TreeOk(rows) && id in rows && a in rows && PathAbove(rows[a].path, rows[id].path)
    ensures rows[a].depth <= rows[id].depth
  {
    assert RowOk(rows, a) && RowOk(rows, id);
  }

  lemma {:induction false} DepthAtLeastIndex(rows: Rows, id: nat, answer: seq<nat>, i: nat)
    requires TreeOk(rows) && id in rows && AncestorAnswer(rows, rows[id].path, answer) && i < |answer|
    ensures i <= rows[answer[i]].depth <= rows[id].depth
  {
    AboveIsNoDeeper(rows, answer[i], id);
    if i > 0 {
      DepthAtLeastIndex(rows, id, answer, i - 1);
      AnswerDepthsRise(rows, id, answer, i - 1, i);
    }
  }

  /** The i-th row of an answer is the ancestor at depth i. */
  lemma {:induction false} AnswerAt(rows: Rows, id: nat, answer: seq<nat>, i: nat)
    requires TreeOk(rows) && id in rows && AncestorAnswer(rows, rows[id].path, answer) && i <= rows[id].depth
    ensures i < |answer| && answer[i] == ParentChain(rows, id)[i]
  {
    var chain := ParentChain(rows, id);
    assert RowOk(rows, id);
    AnswerIsShort(rows, id, answer);
    ChainMembers(rows, id, i);
    assert chain[i] in chain;
    PathsAgreeWithPointers(rows, id, chain[i]);
    assert chain[i] in answer;
    var k :| 0 <= k < |answer| && answer[k] == chain[i];
    DepthAtLeastIndex(rows, id, answer, k);
    if k < i {
      AnswerAt(rows, id, answer, k);
      ChainMembers(rows, id, k);
      assert false;
    }
  }

  lemma AnswerIsShort(rows: Rows, id: nat, answer: seq<nat>)
    requires TreeOk(rows) && id in rows && AncestorAnswer(rows, rows[id].path, answer)
    ensures |answer| <= rows[id].depth + 1 <= MAX_CATEGORY_DEPTH + 1
  {
    assert RowOk(rows, id);
    if answer != [] {
      DepthAtLeastIndex(rows, id, answer, |answer| - 1);
    }
  }

  lemma AnswerIsChain(rows: Rows, id: nat, answer: seq<nat>)
    requires TreeOk(rows) && id in rows && AncestorAnswer(rows, rows[id].path, answer)
    ensures answer == ParentChain(rows, id)
  {
    var chain := ParentChain(rows, id);
    AnswerIsShort(rows, id, answer);
    forall i | 0 <= i < |chain| ensures i < |answer| && answer[i] == chain[i] {
      AnswerAt(rows, id, answer, i);
    }
    if |answer| < |chain| {
      AnswerAt(rows, id, answer, |answer|);
    }
  }

  /**
   * After any history, every answer of the ancestor query is exactly the chain of parents, root first:
   * at most eleven rows, so its limit never cuts anything.
   */
  lemma AncestorsAreParentChain(u: Unicode, ops: seq<Op>, id: nat, answer: seq<nat>)
    requires Sane(u) && id in Run(u, ops) && AncestorAnswer(Run(u, ops), Run(u, ops)[id].path, answer)
    ensures TreeOk(Run(u, ops)) && answer == ParentChain(Run(u, ops), id) && |answer| <= MAX_CATEGORY_DEPTH + 1
  {
    var rows := Run(u, ops);
    RunKeepsTree(u, ops);
    AnswerIsShort(rows, id, answer);
    AnswerIsChain(rows, id, answer);
  }

  /** Parent pointers lead from `d` up to `id`. */
  least predicate Below(rows: Rows, id: nat, d: nat) {
    d in rows && (d == id || (rows[d].parent.Some? && Below(rows, id, rows[d].parent.value)))
  }

  lemma {:induction false} BelowIsChain(rows: Rows, id: nat, d: nat)
    requires TreeOk(rows) && id in rows && d in rows
    ensures Below(rows, id, d) <==> id in ParentChain(rows, d)
    decreases rows[d].depth
  {
    assert RowOk(rows, d);
    if rows[d].parent.Some? {
      BelowIsChain(rows, id, rows[d].parent.value);
    }
  }

  /** After any history the rows whose path lies under a category's path are exactly its descendants. */
  lemma SubtreeIsDescendants(u: Unicode, ops: seq<Op>, id: nat, d: nat)
    requires Sane(u) && id in Run(u, ops) && d in Run(u, ops)
    ensures PathAbove(Run(u, ops)[id].path, Run(u, ops)[d].path) <==> Below(Run(u, ops), id, d)
  {
    var rows := Run(u, ops);
    RunKeepsTree(u, ops);
    PathsAgreeWithPointers(rows, d, id);
    BelowIsChain(rows, id, d);
  }
}
