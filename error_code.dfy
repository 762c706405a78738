/**
 * The closed set of logical error kinds (`ErrorCode.java`), with the members
 * every Java enum has: `ordinal()`, `name()`, `values()`, `valueOf(String)`
 * and `compareTo`.
 */
module ErrorCodes {
  import opened Wrappers

  /** The seven constants, in declaration order. */
  datatype ErrorCode =
    | ValidationError
    | BadRequest
    | NotFound
    | Conflict
    | Unauthorized
    | Forbidden
    | InternalError

  /** `values()`: every constant, in declaration order. */
  function Values(): seq<ErrorCode> {
    [ValidationError, BadRequest, NotFound, Conflict, Unauthorized, Forbidden, InternalError]
  }

  /** `ordinal()`: the position of the constant in its declaration. */
  function Ordinal(c: ErrorCode): (n: nat)
    ensures n < |Values()| && Values()[n] == c
  {
    match c
    case ValidationError => 0
    case BadRequest => 1
    case NotFound => 2
    case Conflict => 3
    case Unauthorized => 4
    case Forbidden => 5
    case InternalError => 6
  }

  /** `name()`: the identifier the constant is declared with. */
  function Name(c: ErrorCode): string {
    match c
    case ValidationError => "VALIDATION_ERROR"
    case BadRequest => "BAD_REQUEST"
    case NotFound => "NOT_FOUND"
    case Conflict => "CONFLICT"
    case Unauthorized => "UNAUTHORIZED"
    case Forbidden => "FORBIDDEN"
    case InternalError => "INTERNAL_ERROR"
  }

  /**
   * `valueOf(name)`: the constant declared with exactly that identifier;
   * `None` where Java throws `IllegalArgumentException`.
   */
  function ValueOf(name: string): (r: Option<ErrorCode>)
    ensures r.Some? ==> Name(r.value) == name
  {
    if name == "VALIDATION_ERROR" then Some(ValidationError)
    else if name == "BAD_REQUEST" then Some(BadRequest)
    else if name == "NOT_FOUND" then Some(NotFound)
    else if name == "CONFLICT" then Some(Conflict)
    else if name == "UNAUTHORIZED" then Some(Unauthorized)
    else if name == "FORBIDDEN" then Some(Forbidden)
    else if name == "INTERNAL_ERROR" then Some(InternalError)
    else None
  }

  /** `a.compareTo(b)`: Java's `Enum.compareTo` is the difference of the ordinals. */
  function CompareTo(a: ErrorCode, b: ErrorCode): int {
    Ordinal(a) - Ordinal(b)
  }

  /** There are exactly seven constants, all listed by `values()`, none twice. */
  lemma ExactlySeven()
    ensures |Values()| == 7
    ensures forall c: ErrorCode :: c in Values()
    ensures forall i, j :: 0 <= i < j < |Values()| ==> Values()[i] != Values()[j]
  {
    forall c: ErrorCode ensures c in Values() {
      assert Values()[Ordinal(c)] == c;
    }
  }

  /** Ordinals run 0..6 in declaration order and tell the constants apart. */
  lemma OrdinalsFollowDeclaration()
    ensures forall i :: 0 <= i < |Values()| ==> Ordinal(Values()[i]) == i
    ensures forall a, b :: Ordinal(a) == Ordinal(b) ==> a == b
  {
    forall a, b | Ordinal(a) == Ordinal(b) ensures a == b {
      assert Values()[Ordinal(a)] == a && Values()[Ordinal(b)] == b;
    }
  }

  /** `valueOf(name(c)) == c`, and `valueOf` accepts nothing but the seven names. */
  lemma ValueOfName(c: ErrorCode, s: string)
    ensures ValueOf(Name(c)) == Some(c)
    ensures ValueOf(s).Some? <==> exists d: ErrorCode :: Name(d) == s
  {
    if exists d: ErrorCode :: Name(d) == s {
      var d: ErrorCode :| Name(d) == s;
      assert ValueOf(Name(d)) == Some(d);
    }
  }

  /** Distinct constants have distinct names. */
  lemma NamesDistinct(a: ErrorCode, b: ErrorCode)
    ensures Name(a) == Name(b) <==> a == b
  {
    ValueOfName(a, Name(a));
    ValueOfName(b, Name(b));
  }

  /** Comparison follows declaration order: earlier constants compare below later ones. */
  lemma {:induction false} CompareFollowsDeclaration(i: nat, j: nat)
    requires i < |Values()| && j < |Values()|
    ensures CompareTo(Values()[i], Values()[j]) < 0 <==> i < j
    ensures CompareTo(Values()[i], Values()[j]) == 0 <==> i == j
  {
    OrdinalsFollowDeclaration();
  }
}
