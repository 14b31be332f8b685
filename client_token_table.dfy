// src/tables/token.rs: the token table revision that declares only the
// unique `public_id` index; nothing constrains duplicate `token` values.
module ClientTokenTable {
  import opened Wrappers
  import opened Entities
  import opened Errors

  /** A row with exactly the columns `id`, `public_id` and `token`. */
  datatype TokenRow = TokenRow(id: nat, publicId: UserPublicId, token: Uuid)

  /** Primary index, the unique `public_id` index and the autoincrement counter. */
  datatype TableState = TableState(rows: map<nat, TokenRow>, publicIdIdx: map<UserPublicId, nat>, nextPk: nat)

  /** `persist: false`: empty at each process start. */
  const EMPTY: TableState := TableState(map[], map[], 0)

  ghost predicate Inv(s: TableState)
  {
    && (forall k :: k in s.rows ==> s.rows[k].id == k && k < s.nextPk)
    && (forall u :: u in s.publicIdIdx ==> s.publicIdIdx[u] in s.rows && s.rows[s.publicIdIdx[u]].publicId == u)
    && (forall k :: k in s.rows ==> s.rows[k].publicId in s.publicIdIdx && s.publicIdIdx[s.rows[k].publicId] == k)
  }

  datatype Step = Step(result: Result<(), Report>, state: TableState)

  /** worktable's `insert` with only the primary key and `public_id` unique. */
  function InsertRow(s: TableState, row: TokenRow): Step
  {
    if row.id in s.rows || row.publicId in s.publicIdIdx then Step(Err(AlreadyExists), s)
    else Step(Ok(()), s.(rows := s.rows[row.id := row], publicIdIdx := s.publicIdIdx[row.publicId := row.id]))
  }

  /** `get_next_pk`: the key handed out, and the table with its counter advanced. */
  function NextPk(s: TableState): (nat, TableState)
  {
    (s.nextPk, s.(nextPk := s.nextPk + 1))
  }

  lemma EmptyTable()
    ensures Inv(EMPTY)
  {
  }

  /** An insert of a row whose id the counter has handed out keeps the invariant. */
  lemma InsertPreservesInv(s: TableState, row: TokenRow)
    requires Inv(s) && row.id < s.nextPk
    ensures Inv(InsertRow(s, row).state)
  {
    var r := InsertRow(s, row);
    if r.result.Ok? {
      var s' := r.state;
      forall k | k in s'.rows
        ensures s'.rows[k].publicId in s'.publicIdIdx && s'.publicIdIdx[s'.rows[k].publicId] == k
      {
        if k != row.id {
          assert s.rows[k].publicId != row.publicId;
        }
      }
    }
  }

  /**
   * Inserting a row whose id is the next primary key succeeds exactly when
   * the user has no row yet, keeps the invariant and adds that row.
   */
  lemma InsertNextRow(s: TableState, u: UserPublicId, t: Uuid)
    requires Inv(s)
    ensures var (id, s1) := NextPk(s);
      var r := InsertRow(s1, TokenRow(id, u, t));
      && Inv(r.state)
      && (r.result.Ok? <==> u !in s.publicIdIdx)
      && (r.result.Ok? ==> id !in s.rows && r.state.rows == s.rows[id := TokenRow(id, u, t)])
      && (r.result.Err? ==> r.result.error == AlreadyExists && r.state == s1)
  {
    var (id, s1) := NextPk(s);
    assert id !in s.rows;
    InsertPreservesInv(s1, TokenRow(id, u, t));
  }

  /**
   * Unlike the two-index revision, two users may hold the same token: both
   * inserts succeed and two rows carry t.
   */
  lemma SharedTokenAccepted(s: TableState, u1: UserPublicId, u2: UserPublicId, t: Uuid)
    requires Inv(s)
    requires u1 != u2 && u1 !in s.publicIdIdx && u2 !in s.publicIdIdx
    ensures var (id1, s1) := NextPk(s);
      var r1 := InsertRow(s1, TokenRow(id1, u1, t));
      var (id2, s2) := NextPk(r1.state);
      var r2 := InsertRow(s2, TokenRow(id2, u2, t));
      && r1.result.Ok? && r2.result.Ok?
      && id1 != id2
      && r2.state.rows[id1].token == t && r2.state.rows[id2].token == t
  {
    InsertNextRow(s, u1, t);
    var (id1, s1) := NextPk(s);
    var r1 := InsertRow(s1, TokenRow(id1, u1, t));
    InsertNextRow(r1.state, u2, t);
  }

  /** `TokenWorkTable` of this revision, updated in place by `insert`. */
  class TokenWorkTable {
    var rows: map<nat, TokenRow>
    var publicIdIdx: map<UserPublicId, nat>
    var nextPk: nat

    function State(): TableState
      reads this
    {
      TableState(rows, publicIdIdx, nextPk)
    }

    ghost predicate Valid()
      reads this
    {
      Inv(State())
    }

    constructor ()
      ensures Valid() && State() == EMPTY
    {
      rows, publicIdIdx, nextPk := map[], map[], 0;
    }

    /** `get_next_pk`: hand out the next key and advance the counter. */
    method GetNextPk() returns (id: nat)
      requires Valid()
      modifies this
      ensures Valid()
      ensures (id, State()) == NextPk(old(State()))
    {
      id := nextPk;
      nextPk := nextPk + 1;
    }

    /** `insert(row)`; the invariant survives when the row's id came from the counter. */
    method Insert(row: TokenRow) returns (r: Result<(), Report>)
      modifies this
      ensures Step(r, State()) == InsertRow(old(State()), row)
      ensures old(Valid()) && row.id < old(nextPk) ==> Valid()
    {
      if Valid() && row.id < nextPk {
        InsertPreservesInv(State(), row);
      }
      if row.id in rows || row.publicId in publicIdIdx {
        r := Err(AlreadyExists);
      } else {
        rows := rows[row.id := row];
        publicIdIdx := publicIdIdx[row.publicId := row.id];
        r := Ok(());
      }
    }
  }
}
