/** Values shared by every part of the parcel engine: identifiers, the
    decoded token payload, handler outcomes and outgoing mail records. */
module Common {

  datatype Option<+T> = None | Some(value: T)

  /** A document identifier. The store hands out fresh ones from a counter,
      standing for MongoDB's ObjectId generator. */
  type Id = nat

  /** The payload the auth middleware decodes from a token and stores as
      `req.user`; handlers take every role decision from it. */
  datatype Claims = Claims(id: Id, isAdmin: bool, name: string, email: string)

  /** The response status a handler sends. `Crash` is an exception thrown
      inside the handler (a property read on a null document, a failed
      save, a response body that cannot be serialised); what is then sent is up to the exception middleware. */
  datatype Status =
    | OK            // 200
    | Created       // 201
    | BadRequest    // 400
    | Unauthorized  // 401
    | NotFound      // 404
    | Crash

  /** A read-only handler's answer: its status and, on 200, the data. */
  datatype Reply<T> = Reply(status: Status, data: Option<T>)

  /** One call of the mailer: recipient, sender, subject and text. */
  datatype Mail = Mail(to: string, from: string, subject: string, text: string)

  function DigitChar(d: nat): (c: char)
    requires d < 10
    ensures '0' <= c <= '9'
  {
    "0123456789"[d]
  }

  /** The text an identifier renders to inside a template string. */
  function IdText(id: Id): (s: string)
    ensures |s| >= 1
    ensures forall i :: 0 <= i < |s| ==> '0' <= s[i] <= '9'
    ensures id >= 10 ==> |s| >= 2
    decreases id
  {
    if id < 10 then [DigitChar(id)] else IdText(id / 10) + [DigitChar(id % 10)]
  }

  lemma DigitCharInjective(a: nat, b: nat)
    requires a < 10 && b < 10 && DigitChar(a) == DigitChar(b)
    ensures a == b
  {
  }

  /** Distinct identifiers render to distinct texts, so a mail subject names
      exactly one parcel. */
  lemma {:induction false} IdTextInjective(a: Id, b: Id)
    requires IdText(a) == IdText(b)
    ensures a == b
    decreases a
  {
    if a < 10 && b < 10 {
      DigitCharInjective(a, b);
    } else if a >= 10 && b >= 10 {
      var sa, sb := IdText(a), IdText(b);
      assert sa[..|sa| - 1] == IdText(a / 10);
      assert sb[..|sb| - 1] == IdText(b / 10);
      IdTextInjective(a / 10, b / 10);
      assert sa[|sa| - 1] == DigitChar(a % 10);
      assert sb[|sb| - 1] == DigitChar(b % 10);
      DigitCharInjective(a % 10, b % 10);
    }
  }
}
