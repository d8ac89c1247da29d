/**
 * The debug route of morph-e2b/app/api/debug/route.ts: `GET` summarises the
 * store without changing it, `POST` to a path ending in `/clear` empties it.
 */
module DebugRoute {
  import opened Text
  import opened Storage

  /** The `GET` body, without its timestamp. */
  datatype Summary = Summary(hasStoredCode: bool, storedCodeLength: nat, storedCodePreview: string)

  const Ellipsis := "..."
  const PreviewLength: nat := 100

  /**
   * `code.substring(0, 100) + '...' || 'No code'`. The left operand is never
   * empty, so the `'No code'` alternative is never taken: the preview is the
   * first hundred characters (all of a shorter code) followed by `...`.
   */
  function Preview(code: string): (p: string)
    ensures EndsWith(p, Ellipsis)
    ensures |p| <= PreviewLength + 3
    ensures p != "No code"
    ensures p[..|p| - 3] <= code
    ensures |p| - 3 == if |code| < PreviewLength then |code| else PreviewLength
  {
    var shown := Take(code, PreviewLength) + Ellipsis;
    if shown != "" then shown else "No code"
  }

  /** `GET`: whether there is code, its length and its preview; the store is only read. */
  method Get(store: AppStorage) returns (s: Summary)
    ensures s.hasStoredCode <==> store.code != ""
    ensures s.storedCodeLength == |store.code|
    ensures s.storedCodePreview == Preview(store.code)
  {
    var code := store.GetCode();
    var has := store.HasCode();
    s := Summary(has, |code|, Preview(code));
  }

  datatype PostReply = Cleared(message: string) | NotFound(status: nat, error: string)

  /** `POST`: a path ending in `/clear` empties the store; any other path is 404 and leaves it alone. */
  method Post(store: AppStorage, pathname: string) returns (reply: PostReply)
    modifies store
    ensures EndsWith(pathname, "/clear") ==> store.code == "" && reply == Cleared("Storage cleared successfully")
    ensures !EndsWith(pathname, "/clear") ==> store.code == old(store.code) && reply == NotFound(404, "Not found")
  {
    if EndsWith(pathname, "/clear") {
      store.Clear();
      return Cleared("Storage cleared successfully");
    }
    return NotFound(404, "Not found");
  }
}
