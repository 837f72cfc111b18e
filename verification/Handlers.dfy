/** What a handler learns about the storage a request is for. */
module Handlers {
  import opened Collections

  /** The request context: each entry is there once it has been stored, and otherwise reported as not found. */
  datatype Context = Context(userName: Option<string>, publicStorage: Option<bool>, permanentStorage: Option<bool>,
                             fileName: Option<string>)

  const BACKGROUND := Context(None, None, None, None)

  datatype StorageParameters =
    StorageParameters(storageName: string, isPublic: bool, isPermanent: bool, fileName: string)

  method RequestParameters(ctx: Context) returns (sp: StorageParameters)
    ensures sp == Parameters(ctx)
    ensures sp.storageName == if ctx.userName.Some? then ctx.userName.value else ""
    ensures sp.isPublic <==> ctx.publicStorage == Some(true)
    ensures sp.isPermanent <==> ctx.permanentStorage == Some(true)
    ensures sp.fileName == if ctx.fileName.Some? then ctx.fileName.value else ""
  {
    var storage, isPublic, isPermanent, fileName := "", false, false, "";
    if ctx.userName.Some? {
      storage := ctx.userName.value;
    }
    if ctx.publicStorage.Some? {
      isPublic := ctx.publicStorage.value;
    }
    if ctx.permanentStorage.Some? {
      isPermanent := ctx.permanentStorage.value;
    }
    if ctx.fileName.Some? {
      fileName := ctx.fileName.value;
    }
    sp := StorageParameters(storage, isPublic, isPermanent, fileName);
  }

  function OrElse<T>(entry: Option<T>, default: T): T { if entry.Some? then entry.value else default }

  function Parameters(ctx: Context): StorageParameters {
    StorageParameters(OrElse(ctx.userName, ""), OrElse(ctx.publicStorage, false),
                      OrElse(ctx.permanentStorage, false), OrElse(ctx.fileName, ""))
  }

  // ----- the query sent on -----

  type Query = map<string, seq<string>>

  function AddValue(q: Query, key: string, value: string): Query {
    q[key := (if key in q then q[key] else []) + [value]]
  }

  function Get(q: Query, key: string): string { if key in q && q[key] != [] then q[key][0] else "" }

  function Decode(q: Query): StorageParameters {
    StorageParameters(Get(q, "storage"), Get(q, "public") == "true", Get(q, "permanent") == "true", Get(q, "file"))
  }

  /** The query loses nothing, has each key once, and leaves out the flags that are not set. */
  method Values(sp: StorageParameters) returns (q: Query)
    ensures Decode(q) == sp && forall key | key in q :: |q[key]| == 1
    ensures "storage" in q && q["storage"] == [sp.storageName] && "file" in q && q["file"] == [sp.fileName]
    ensures ("public" in q ==> q["public"] == ["true"]) && ("permanent" in q ==> q["permanent"] == ["true"])
    ensures q.Keys == {"storage", "file"} + (if sp.isPublic then {"public"} else {})
                                          + (if sp.isPermanent then {"permanent"} else {})
  {
    KeysDiffer();
    q := map[];
    q := AddValue(q, "storage", sp.storageName);
    if sp.isPublic {
      q := AddValue(q, "public", "true");
    }
    if sp.isPermanent {
      q := AddValue(q, "permanent", "true");
    }
    q := AddValue(q, "file", sp.fileName);
  }

  lemma KeysDiffer()
    ensures "storage" != "public" && "storage" != "permanent" && "storage" != "file"
    ensures "public" != "permanent" && "public" != "file" && "permanent" != "file"
  {
    assert "storage"[0] == 's' && "public"[0] == 'p' && "permanent"[0] == 'p' && "file"[0] == 'f';
    assert "public"[1] == 'u' && "permanent"[1] == 'e';
  }
}
