/** The ownership test the handlers run before every owner-only action:
    `doc.<owner>.toString() !== req.user.userId`. The middleware sets
    `req.user.userId` to the stored user's `_id`, an ObjectId object, not a
    string, so the strict comparison as written never finds an owner. The
    model keeps that reading (IsOwnerAsWritten) beside the evidently
    intended one, which compares the two ids as text (IsOwner); the store
    uses IsOwner. */
module Identity {
  import opened Common

  /** The two forms an id takes in the handlers: an ObjectId object, or
      the string `.toString()` gives for it. */
  datatype JsValue = JsString(text: string) | JsObjectId(oid: Id)

  function Digit(d: nat): (c: char)
    requires d < 10
    ensures '0' <= c <= '9'
  {
    (48 + d) as char
  }

  /** The text of an id (ObjectId's hexadecimal text is modelled by the
      decimal one; all that matters is that distinct ids have distinct
      texts). */
  function IdText(id: Id): (t: string)
    ensures |t| >= 1
    ensures id >= 10 ==> |t| >= 2
  {
    if id < 10 then [Digit(id)] else IdText(id / 10) + [Digit(id % 10)]
  }

  lemma {:induction false} IdTextInjective(a: Id, b: Id)
    ensures IdText(a) == IdText(b) ==> a == b
  {
    if IdText(a) == IdText(b) {
      if a >= 10 && b >= 10 {
        var ta, tb := IdText(a), IdText(b);
        assert ta[|ta| - 1] == Digit(a % 10) && tb[|tb| - 1] == Digit(b % 10);
        assert a % 10 == b % 10;
        assert IdText(a / 10) == ta[..|ta| - 1] == tb[..|tb| - 1] == IdText(b / 10);
        IdTextInjective(a / 10, b / 10);
      } else if a < 10 && b < 10 {
        assert IdText(a)[0] == Digit(a) && IdText(b)[0] == Digit(b);
      }
    }
  }

  /** `===` where at least one side is a string: equal exactly when both
      are strings with the same text. A string never equals an object. */
  function StrictEquals(x: JsValue, y: JsValue): (eq: bool)
    requires x.JsString? || y.JsString?
    ensures eq <==> x.JsString? && y.JsString? && x.text == y.text
  {
    match (x, y)
    case (JsString(s), JsString(t)) => s == t
    case _ => false
  }

  /** The ownership test as written: the owner's id as text, compared
      strictly with the ObjectId in `req.user.userId`. It holds for no
      caller at all, the owner included. */
  function IsOwnerAsWritten(owner: Id, caller: Id): (ok: bool)
    ensures !ok
  {
    StrictEquals(JsString(IdText(owner)), JsObjectId(caller))
  }

  /** The ownership test as intended: both ids compared as text. It holds
      exactly for the owner. */
  function IsOwner(owner: Id, caller: Id): (ok: bool)
    ensures ok <==> owner == caller
  {
    IdTextInjective(owner, caller);
    StrictEquals(JsString(IdText(owner)), JsString(IdText(caller)))
  }

  /** The discrepancy: the owner of a document fails the test as written
      and passes the intended one. */
  lemma OwnerRefusedAsWritten(owner: Id)
    ensures !IsOwnerAsWritten(owner, owner)
    ensures IsOwner(owner, owner)
  {
  }
}
