/** Values shared by the save store: amounts, currencies, content, rewards and errors. */
module SaveDomain {
  import opened Wrappers
  import opened Text

  type Usn = int

  const I32_MAX := 0x7fff_ffff

  /** An `f64` argument: exact when finite. */
  datatype Number = Finite(value: real) | PosInfinity | NegInfinity | NaN

  predicate ValidAmount(n: Number) {
    n.Finite? && n.value >= 0.0
  }

  function MaxReal(a: real, b: real): real {
    if a >= b then a else b
  }

  function MaxInt(a: int, b: int): int {
    if a >= b then a else b
  }

  function MinInt(a: int, b: int): int {
    if a <= b then a else b
  }

  /** `i64` arithmetic that saturates. */
  function Saturate64(x: int): int {
    MaxInt(-I64_MAX - 1, MinInt(x, I64_MAX))
  }

  /** `i32` arithmetic that saturates. */
  function Saturate32(x: int): int {
    MaxInt(-I32_MAX - 1, MinInt(x, I32_MAX))
  }

  /** `amount.round().max(0.0) as i64`. */
  function RoundCount(amount: real): nat {
    MaxInt(0, MinInt((amount + 0.5).Floor, I64_MAX))
  }

  datatype CurrencyKind = Ch1Like | Ch2Like | Ch2Note | Candy | Chocolate | Fans | Gingerbread | ChocoMilk

  datatype ContentKind = Character | Costume | Guitar | Music | Skill | Unit | Follower | Prop | Buff | Gift

  /** Content ids are unique within a kind. */
  datatype Content = Content(kind: ContentKind, id: int)

  datatype RewardGrant = RewardGrant(rewardType: int, rewardId: int, amount: Number)

  datatype StoreError =
    | MissingSlot(usn: Usn)
    | NoActiveSlot
    | MissingMail(postId: int)
    | MailAlreadyClaimed(postId: int)
    | IdempotencyConflict
    | ActiveSlot(usn: Usn)
    | UnsupportedReward
    | InvalidAmount
    | IdentityMismatch
    | StaleRequest
    | AlreadyClaimed
    | AlreadyOwned
    | InsufficientBalance
    | Locked
    | InvalidStage
    | InsufficientEnergy
    | SqlConstraint  // a CHECK, UNIQUE or type constraint of the schema

  /** The eight balance rows of a slot, which exist from its creation on. */
  datatype Wallet = Wallet(ch1Like: real, ch2Like: real, ch2Note: real, candy: real,
                           chocolate: real, fans: real, gingerbread: real, chocoMilk: real)

  const EMPTY_WALLET := Wallet(0.0, 0.0, 0.0, 0.0, 0.0, 0.0, 0.0, 0.0)

  function Balance(wallet: Wallet, kind: CurrencyKind): real {
    match kind
    case Ch1Like => wallet.ch1Like
    case Ch2Like => wallet.ch2Like
    case Ch2Note => wallet.ch2Note
    case Candy => wallet.candy
    case Chocolate => wallet.chocolate
    case Fans => wallet.fans
    case Gingerbread => wallet.gingerbread
    case ChocoMilk => wallet.chocoMilk
  }

  /** `UPDATE currencies SET amount=..` of one row: the others keep theirs. */
  function SetBalance(wallet: Wallet, kind: CurrencyKind, amount: real): (w: Wallet)
    ensures forall k :: Balance(w, k) == if k == kind then amount else Balance(wallet, k)
  {
    match kind
    case Ch1Like => wallet.(ch1Like := amount)
    case Ch2Like => wallet.(ch2Like := amount)
    case Ch2Note => wallet.(ch2Note := amount)
    case Candy => wallet.(candy := amount)
    case Chocolate => wallet.(chocolate := amount)
    case Fans => wallet.(fans := amount)
    case Gingerbread => wallet.(gingerbread := amount)
    case ChocoMilk => wallet.(chocoMilk := amount)
  }

  predicate NonNegative(wallet: Wallet) {
    forall kind :: Balance(wallet, kind) >= 0.0
  }

  function Credit(wallet: Wallet, kind: CurrencyKind, amount: real): Wallet {
    SetBalance(wallet, kind, Balance(wallet, kind) + amount)
  }

  /** `deduct_currency`: nothing to do at zero, and never below zero. */
  function Deduct(wallet: Wallet, kind: CurrencyKind, amount: Number): Result<Wallet, StoreError> {
    if !ValidAmount(amount) then Err(InvalidAmount)
    else if amount.value == 0.0 then Ok(wallet)
    else if Balance(wallet, kind) < amount.value then Err(InsufficientBalance)
    else Ok(SetBalance(wallet, kind, Balance(wallet, kind) - amount.value))
  }

  // ----- Largest element and sums over finite sets of integers -----

  lemma {:induction false} MaxExists(s: set<int>, m: int)
    requires m in s
    ensures exists n :: n in s && forall x | x in s :: x <= n
    decreases |s|
  {
    if k :| k in s && k > m {
      assert k in s - {m};
      MaxExists(s - {m}, k);
      var n :| n in s - {m} && forall x | x in s - {m} :: x <= n;
      assert forall x | x in s :: x == m || x in s - {m};
    }
  }

  lemma Pick<T>(s: set<T>) returns (x: T)
    requires s != {}
    ensures x in s
  {
    x :| x in s;
  }

  lemma {:induction false} SubsetCount<T>(a: set<T>, b: set<T>)
    requires a <= b
    ensures |a| <= |b| && (|a| == |b| ==> a == b)
    decreases |a|
  {
    if a != {} {
      var x := Pick(a);
      SubsetCount(a - {x}, b - {x});
      assert a == (a - {x}) + {x} && b == (b - {x}) + {x};
    }
  }

  lemma MaxWitness(s: set<int>)
    requires s != {}
    ensures exists n :: n in s && forall x | x in s :: x <= n
  {
    var m := Pick(s);
    MaxExists(s, m);
  }

  function MaxOf(s: set<int>): (m: int)
    requires s != {}
    ensures m in s && forall x | x in s :: x <= m
  {
    MaxWitness(s);
    var m: int :| m in s && forall x | x in s :: x <= m;
    m
  }

  lemma MinWitness(s: set<int>)
    requires s != {}
    ensures exists n :: n in s && forall x | x in s :: n <= x
  {
    var negated := set x | x in s :: -x;
    var one := Pick(s);
    assert -one in negated;
    var m := MaxOf(negated);
    assert -m in s;
    forall x | x in s ensures -m <= x {
      assert -x in negated;
    }
  }

  function MinOf(s: set<int>): (m: int)
    requires s != {}
    ensures m in s && forall x | x in s :: m <= x
  {
    MinWitness(s);
    var m: int :| m in s && forall x | x in s :: m <= x;
    m
  }

  /** `SELECT COALESCE(MAX(..), default)`. */
  function MaxOr(s: set<int>, default: int): int {
    if s == {} then default else MaxOf(s)
  }
}
