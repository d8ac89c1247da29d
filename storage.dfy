/**
 * The in-memory store of morph-e2b/lib/storage.ts: one string field holding
 * the current `index.html`, shared by the agent tools and the debug route.
 */
module Storage {

  class AppStorage {
    var code: string

    /** A fresh store holds the empty string, so it has no code. */
    constructor ()
      ensures code == ""
    {
      code := "";
    }

    /** `setCode`: the new value replaces the old one. */
    method SetCode(c: string)
      modifies this
      ensures code == c
    {
      code := c;
    }

    /** `getCode`: the stored value, with the store left as it was. */
    method GetCode() returns (c: string)
      ensures c == code
    {
      c := code;
    }

    /** `hasCode`: true exactly when the stored value is non-empty. */
    method HasCode() returns (b: bool)
      ensures b <==> |code| > 0
      ensures b <==> code != ""
    {
      b := |code| > 0;
    }

    /** `clear`: back to the empty string. */
    method Clear()
      modifies this
      ensures code == ""
    {
      code := "";
    }
  }
}
