/** The master-key file of a node and the one-slot cache in front of it. */
module KeyStore {
  import opened Basics
  import opened Vault

  /** What `Read` returns; it is also what the cache holds afterwards when it is a key. */
  function ReadThrough(cache: Option<Member>, file: Option<Member>): Option<Member> {
    if cache.Some? then cache else file
  }

  class MasterKeyStore {
    const nodeId: Name
    var file: Option<Member>
    var cached: Option<Member>

    constructor (id: Name, onDisk: Option<Member>)
      ensures nodeId == id && file == onDisk && cached == None
    {
      nodeId := id;
      file := onDisk;
      cached := None;
    }

    method Read() returns (m: Option<Member>)
      modifies this`cached
      ensures m == ReadThrough(old(cached), file)
      ensures cached == m
    {
      if cached.Some? { return cached; }
      if file.None? { return None; }
      cached := file;
      m := cached;
    }

    /** Replaces the file and leaves the cache as it is. */
    method Write(secret: string)
      modifies this`file
      ensures file == Some(Member(nodeId, secret))
    {
      file := Some(Member(nodeId, secret));
    }
  }

  /** The cache never contradicts the file. */
  predicate Coherent(cache: Option<Member>, file: Option<Member>) {
    cache.Some? ==> cache == file
  }
}
