/**
 * The browser's object-URL table behind URL.createObjectURL and
 * URL.revokeObjectURL: every created URL is new, refers to the object it
 * was created for, and stays live until it is revoked.
 */
module ObjectUrls {
  import opened JsStrings

  /** A URL handed out by URL.createObjectURL, identified by its creation order. */
  datatype ObjectUrl = ObjectUrl(serial: nat)

  /** The text of an object URL; it always carries the `blob:` scheme. */
  function Text(u: ObjectUrl): (r: string)
    ensures StartsWith(r, "blob:") && |r| > 5
  {
    "blob:" + Digits(u.serial)
  }

  class Registry<T> {
    /** What each created URL refers to, indexed by serial. */
    var targets: seq<T>
    /** Serials of the URLs passed to URL.revokeObjectURL. */
    var revoked: set<nat>

    constructor()
      ensures targets == [] && revoked == {}
    {
      targets := [];
      revoked := {};
    }

    /** The URL was created and has not been revoked. */
    predicate Live(u: ObjectUrl)
      reads this
    {
      u.serial < |targets| && u.serial !in revoked
    }

    /** URL.createObjectURL(x) */
    method Create(x: T) returns (u: ObjectUrl)
      modifies this
      ensures u.serial == |old(targets)| && targets == old(targets) + [x]
      ensures revoked == old(revoked)
    {
      u := ObjectUrl(|targets|);
      targets := targets + [x];
    }

    /** URL.revokeObjectURL(u) */
    method Revoke(u: ObjectUrl)
      modifies this
      ensures targets == old(targets) && revoked == old(revoked) + {u.serial}
    {
      revoked := revoked + {u.serial};
    }
  }
}
