/** Shared vocabulary of the store model: optional values, results carrying
    the store's error kinds, the HTTP verb a view was called with, and the
    fixed-point money units. */
module Base {

  datatype Option<T> = None | Some(value: T) {
    function GetOr(default: T): T {
      match this
      case Some(v) => v
      case None => default
    }
  }

  /** Why a view refused a request. A refusing view leaves the state as it was. */
  datatype Error =
    | NotFound          // the object is missing, inactive, or not the caller's
    | AccessDenied      // a staff-only view called by a non-superuser
    | AlreadySignedIn   // registration by a signed-in user
    | NotSubmitted      // a view that acts on POST only was called otherwise
    | InvalidMethod     // a JSON view that answers non-POST with an error
    | MissingFields     // a required form field is empty
    | InvalidReference  // the form names an unknown category or brand
    | IntegrityError    // a database constraint refused the row
    | PasswordMismatch
    | EmailExists
    | UsernameExists
    | EmptyCart
    | CheckoutFailed
    | AlreadyPaid
    | CannotCancel      // the order has been shipped or delivered
    | AlreadyCancelled
    | InvalidRequest    // no valid status or payment status given

  datatype Result<T> = Ok(value: T) | Err(error: Error)

  datatype HttpMethod = Get | Post

  /** Product prices and cart totals, in cents. */
  type Cents = int

  /** Order amounts are kept in hundredths of a cent, so that the 8% tax on
      a subtotal in cents is exact. */
  const SubunitsPerCent: int := 100

  /** The customer tax rate, in percent. */
  const TaxPercent: int := 8

  function Reverse<T(!new)>(s: seq<T>): (r: seq<T>)
    ensures |r| == |s|
    ensures forall i :: 0 <= i < |s| ==> r[i] == s[|s| - 1 - i]
    ensures forall x :: x in r <==> x in s
  {
    if s == [] then [] else Reverse(s[1..]) + [s[0]]
  }

  lemma {:induction false} ReverseMultiset<T(!new)>(s: seq<T>)
    ensures multiset(Reverse(s)) == multiset(s)
  {
    if s != [] {
      ReverseMultiset(s[1..]);
      assert s == [s[0]] + s[1..];
    }
  }
}
