// The in-memory token table with two unique indexes, as declared by the
// `worktable!` of src/handlers/convenience_utils/token_management.rs and,
// identically, of src/types/traits/token_storage.rs, with the
// `TokenStorage` implementation `TokenWorkTableStorage` over it.
module TokenManagement {
  import opened Wrappers
  import opened Entities
  import opened Errors

  /** A row: `id` is the autoincrement primary key. */
  datatype TokenRow = TokenRow(id: nat, publicId: UserPublicId, token: Uuid)

  /**
   * The table's state: the primary index (id to row), the two unique
   * indexes `public_id_idx` and `token_idx` (column value to id), and the
   * autoincrement counter behind `get_next_pk`.
   */
  datatype TableState = TableState(
    rows: map<nat, TokenRow>,
    publicIdIdx: map<UserPublicId, nat>,
    tokenIdx: map<Uuid, nat>,
    nextPk: nat)

  /** `#[derive(Default)]` with `persist: false`: empty at every start. */
  const EMPTY: TableState := TableState(map[], map[], map[], 0)

  /** The indexes agree with the rows and every id was handed out by the counter. */
  ghost predicate Inv(s: TableState)
  {
    && (forall k :: k in s.rows ==> s.rows[k].id == k && k < s.nextPk)
    && (forall u :: u in s.publicIdIdx ==> s.publicIdIdx[u] in s.rows && s.rows[s.publicIdIdx[u]].publicId == u)
    && (forall t :: t in s.tokenIdx ==> s.tokenIdx[t] in s.rows && s.rows[s.tokenIdx[t]].token == t)
    && (forall k :: k in s.rows ==> s.rows[k].publicId in s.publicIdIdx && s.publicIdIdx[s.rows[k].publicId] == k)
    && (forall k :: k in s.rows ==> s.rows[k].token in s.tokenIdx && s.tokenIdx[s.rows[k].token] == k)
  }

  /** Owner of each stored token, read through `token_idx`. */
  function Owners(s: TableState): map<Uuid, UserPublicId>
  {
    map t | t in s.tokenIdx && s.tokenIdx[t] in s.rows :: s.rows[s.tokenIdx[t]].publicId
  }

  /** Token of each user that has a row, read through `public_id_idx`. */
  function TokensOf(s: TableState): map<UserPublicId, Uuid>
  {
    map u | u in s.publicIdIdx && s.publicIdIdx[u] in s.rows :: s.rows[s.publicIdIdx[u]].token
  }

  datatype Step = Step(result: Result<(), Report>, state: TableState)

  /**
   * worktable's `insert`: rejected, with nothing changed, when the primary
   * key or either unique column is already present; otherwise the row is
   * added to the primary index and to both unique indexes.
   */
  function Insert(s: TableState, row: TokenRow): Step
  {
    if row.id in s.rows || row.publicId in s.publicIdIdx || row.token in s.tokenIdx then
      Step(Err(AlreadyExists), s)
    else
      Step(Ok(()), s.(rows := s.rows[row.id := row],
                      publicIdIdx := s.publicIdIdx[row.publicId := row.id],
                      tokenIdx := s.tokenIdx[row.token := row.id]))
  }

  /** `store_token`: take the next primary key, then insert (u, t) under it. */
  function Store(s: TableState, u: UserPublicId, t: Uuid): Step
  {
    Insert(s.(nextPk := s.nextPk + 1), TokenRow(s.nextPk, u, t))
  }

  const TOKEN_NOT_FOUND: Report := Message("token not found")

  /** `validate_token`: `select_by_token`, then the row's `public_id`. */
  function Validate(s: TableState, t: Uuid): Result<UserPublicId, Report>
  {
    if t in s.tokenIdx && s.tokenIdx[t] in s.rows then Ok(s.rows[s.tokenIdx[t]].publicId)
    else Err(TOKEN_NOT_FOUND)
  }

  lemma EmptyTable()
    ensures Inv(EMPTY)
    ensures Owners(EMPTY) == map[] && TokensOf(EMPTY) == map[]
  {
  }

  /** The two unique indexes make the table a partial bijection between users and tokens. */
  lemma OwnersAndTokensAreInverse(s: TableState)
    requires Inv(s)
    ensures forall t :: t in Owners(s) ==> Owners(s)[t] in TokensOf(s) && TokensOf(s)[Owners(s)[t]] == t
    ensures forall u :: u in TokensOf(s) ==> TokensOf(s)[u] in Owners(s) && Owners(s)[TokensOf(s)[u]] == u
  {
    forall t | t in Owners(s)
      ensures Owners(s)[t] in TokensOf(s) && TokensOf(s)[Owners(s)[t]] == t
    {
      var k := s.tokenIdx[t];
      assert s.rows[k].publicId in s.publicIdIdx;
    }
    forall u | u in TokensOf(s)
      ensures TokensOf(s)[u] in Owners(s) && Owners(s)[TokensOf(s)[u]] == u
    {
      var k := s.publicIdIdx[u];
      assert s.rows[k].token in s.tokenIdx;
    }
  }

  /** `validate_token` finds exactly the stored tokens, each with its owner. */
  lemma ValidateIsOwners(s: TableState, t: Uuid)
    ensures t in Owners(s) ==> Validate(s, t) == Ok(Owners(s)[t])
    ensures t !in Owners(s) ==> Validate(s, t) == Err(TOKEN_NOT_FOUND)
  {
  }

  /** `store_token(u, t)` succeeds exactly when u owns no row and t is not stored. */
  lemma StoreAcceptance(s: TableState, u: UserPublicId, t: Uuid)
    requires Inv(s)
    ensures Store(s, u, t).result.Ok? <==> u !in TokensOf(s) && t !in Owners(s)
    ensures Store(s, u, t).result.Err? ==> Store(s, u, t).result.error == AlreadyExists
  {
    assert s.nextPk !in s.rows;
    assert u in TokensOf(s) <==> u in s.publicIdIdx;
    assert t in Owners(s) <==> t in s.tokenIdx;
  }

  /** A rejected `store_token` changes nothing but the counter. */
  lemma StoreRejectedKeepsRows(s: TableState, u: UserPublicId, t: Uuid)
    requires Store(s, u, t).result.Err?
    ensures Store(s, u, t).state == s.(nextPk := s.nextPk + 1)
  {
  }

  /** An accepted `store_token` adds one row under the fresh key `nextPk` and keeps the invariant. */
  lemma StoreAcceptedAddsRow(s: TableState, u: UserPublicId, t: Uuid)
    requires Inv(s)
    requires Store(s, u, t).result.Ok?
    ensures s.nextPk !in s.rows
    ensures Store(s, u, t).state.rows == s.rows[s.nextPk := TokenRow(s.nextPk, u, t)]
    ensures Store(s, u, t).state.nextPk == s.nextPk + 1
    ensures Inv(Store(s, u, t).state)
  {
    var s' := Store(s, u, t).state;
    forall k | k in s'.rows
      ensures s'.rows[k].publicId in s'.publicIdIdx && s'.publicIdIdx[s'.rows[k].publicId] == k
    {
      if k != s.nextPk {
        assert s.rows[k].publicId != u;
      }
    }
    forall k | k in s'.rows
      ensures s'.rows[k].token in s'.tokenIdx && s'.tokenIdx[s'.rows[k].token] == k
    {
      if k != s.nextPk {
        assert s.rows[k].token != t;
      }
    }
  }

  /** Every `store_token`, accepted or not, keeps the invariant. */
  lemma StorePreservesInv(s: TableState, u: UserPublicId, t: Uuid)
    requires Inv(s)
    ensures Inv(Store(s, u, t).state)
  {
    if Store(s, u, t).result.Ok? {
      StoreAcceptedAddsRow(s, u, t);
    }
  }

  /** An accepted `store_token(u, t)` adds exactly the pair (t, u) to the bijection. */
  lemma StoreAcceptedMaps(s: TableState, u: UserPublicId, t: Uuid)
    requires Inv(s)
    requires Store(s, u, t).result.Ok?
    ensures Owners(Store(s, u, t).state) == Owners(s)[t := u]
    ensures TokensOf(Store(s, u, t).state) == TokensOf(s)[u := t]
  {
    assert s.nextPk !in s.rows;
  }

  /** After `store_token(u, t)` succeeds, `validate_token(t)` returns u and other tokens keep their answer. */
  lemma StoreThenValidate(s: TableState, u: UserPublicId, t: Uuid, t': Uuid)
    requires Inv(s)
    requires Store(s, u, t).result.Ok?
    ensures Validate(Store(s, u, t).state, t) == Ok(u)
    ensures t' != t ==> Validate(Store(s, u, t).state, t') == Validate(s, t')
  {
    StoreAcceptedMaps(s, u, t);
    ValidateIsOwners(s, t');
    ValidateIsOwners(Store(s, u, t).state, t);
    ValidateIsOwners(Store(s, u, t).state, t');
  }

  /** A second `store_token` for the same user, or reusing the same token, is rejected. */
  lemma SecondStoreRejected(s: TableState, u: UserPublicId, t: Uuid, u': UserPublicId, t': Uuid)
    requires Inv(s)
    requires Store(s, u, t).result.Ok?
    requires u' == u || t' == t
    ensures Store(Store(s, u, t).state, u', t').result == Err(AlreadyExists)
  {
    StoreAcceptedMaps(s, u, t);
    StorePreservesInv(s, u, t);
    StoreAcceptance(Store(s, u, t).state, u', t');
  }

  /** In-memory `TokenWorkTableStorage`: the table's fields, updated in place by inserts. */
  class TokenWorkTableStorage {
    var rows: map<nat, TokenRow>
    var publicIdIdx: map<UserPublicId, nat>
    var tokenIdx: map<Uuid, nat>
    var nextPk: nat

    function State(): TableState
      reads this
    {
      TableState(rows, publicIdIdx, tokenIdx, nextPk)
    }

    ghost predicate Valid()
      reads this
    {
      Inv(State())
    }

    /** `TokenWorkTableStorage::default()`. */
    constructor ()
      ensures Valid() && State() == EMPTY
    {
      rows, publicIdIdx, tokenIdx, nextPk := map[], map[], map[], 0;
    }

    /** `store_token(user_pub_id, token)`. */
    method StoreToken(userPubId: UserPublicId, token: Uuid) returns (r: Result<(), Report>)
      requires Valid()
      modifies this
      ensures Valid()
      ensures Step(r, State()) == Store(old(State()), userPubId, token)
    {
      StorePreservesInv(State(), userPubId, token);
      var id := nextPk;
      nextPk := nextPk + 1;
      if id in rows || userPubId in publicIdIdx || token in tokenIdx {
        r := Err(AlreadyExists);
      } else {
        rows := rows[id := TokenRow(id, userPubId, token)];
        publicIdIdx := publicIdIdx[userPubId := id];
        tokenIdx := tokenIdx[token := id];
        r := Ok(());
      }
    }

    /** `validate_token(token)`: a read-only lookup by token. */
    method ValidateToken(token: Uuid) returns (r: Result<UserPublicId, Report>)
      ensures token in Owners(State()) ==> r == Ok(Owners(State())[token])
      ensures token !in Owners(State()) ==> r == Err(TOKEN_NOT_FOUND)
      ensures r == Validate(State(), token)
    {
      if token in tokenIdx && tokenIdx[token] in rows {
        r := Ok(rows[tokenIdx[token]].publicId);
      } else {
        r := Err(TOKEN_NOT_FOUND);
      }
    }
  }
}
