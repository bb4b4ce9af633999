/** Content-addressed storage of pruned tool outputs. */
module ContentStore {
  import opened Wrappers
  import opened Text

  /** The hex digest; SHA-256 itself is not modelled. */
  type Hash = string -> string

  datatype Ref = Ref(key: string, size: nat)

  function ContentKey(hash: Hash, content: string): (key: string)
    ensures key != ""
  {
    "sha256:" + hash(content)
  }

  function Added(data: map<string, string>, hash: Hash, content: string): map<string, string> {
    data[ContentKey(hash, content) := content]
  }

  function PutAll(data: map<string, string>, hash: Hash, contents: seq<string>): map<string, string> {
    if contents == [] then data
    else Added(PutAll(data, hash, contents[..|contents| - 1]), hash, contents[|contents| - 1])
  }

  /** A store that may refuse a content. `MemoryStore` is the one that refuses nothing. */
  class Store {
    const hash: Hash
    const refuses: string -> bool
    var data: map<string, string>

    constructor (hash: Hash, refuses: string -> bool)
      ensures this.hash == hash && this.refuses == refuses && data == map[]
    {
      this.hash := hash;
      this.refuses := refuses;
      data := map[];
    }

    method Put(content: string) returns (r: Result<Ref, ()>)
      modifies this
      ensures r == if refuses(content) then Err(()) else Ok(Ref(ContentKey(hash, content), ByteLen(content)))
      ensures data == if refuses(content) then old(data) else Added(old(data), hash, content)
    {
      if refuses(content) {
        return Err(());
      }
      var key := ContentKey(hash, content);
      data := data[key := content];
      r := Ok(Ref(key, ByteLen(content)));
    }

    method Get(key: string) returns (r: Result<string, ()>)
      ensures r == if key in data then Ok(data[key]) else Err(())
    {
      if key !in data {
        return Err(());
      }
      r := Ok(data[key]);
    }
  }

  /** Two contents with one key. */
  predicate Collide(hash: Hash, a: string, b: string) {
    ContentKey(hash, a) == ContentKey(hash, b) && a != b
  }

  predicate Holds(data: map<string, string>, hash: Hash, content: string) {
    var key := ContentKey(hash, content);
    key in data && data[key] == content
  }

  /** After each of the puts the content is held. */
  ghost predicate HeldThroughout(data: map<string, string>, hash: Hash, content: string, later: seq<string>) {
    forall n :: 0 <= n <= |later| ==> Holds(PutAll(data, hash, later[..n]), hash, content)
  }

  lemma HeldOnce(data: map<string, string>, hash: Hash, content: string, rest: seq<string>, last: string)
    ensures HeldThroughout(data, hash, content, rest + [last])
            <==> HeldThroughout(data, hash, content, rest) && Holds(PutAll(data, hash, rest + [last]), hash, content)
  {
    var later := rest + [last];
    assert forall n :: 0 <= n <= |rest| ==> later[..n] == rest[..n];
    assert later[..|later|] == later;
  }

  /** A content stays retrievable throughout a run of puts if and only if none of them collides with it. */
  lemma {:induction false} KeptIff(data: map<string, string>, hash: Hash, content: string, later: seq<string>)
    requires Holds(data, hash, content)
    ensures ContentKey(hash, content) in PutAll(data, hash, later)
    ensures HeldThroughout(data, hash, content, later) <==> forall c :: c in later ==> !Collide(hash, content, c)
  {
    if later == [] {
      assert later[..0] == [];
    } else {
      var rest, last := later[..|later| - 1], later[|later| - 1];
      KeptIff(data, hash, content, rest);
      assert later == rest + [last];
      HeldOnce(data, hash, content, rest, last);
      if HeldThroughout(data, hash, content, rest) {
        assert rest[..|rest|] == rest;
        assert Holds(PutAll(data, hash, later), hash, content) <==> !Collide(hash, content, last);
      }
    }
  }

  /** A content that was put, and not collided with, is held. */
  lemma {:induction false} PutIsHeld(data: map<string, string>, hash: Hash, content: string, puts: seq<string>)
    requires content in puts && forall c :: c in puts ==> !Collide(hash, content, c)
    ensures Holds(PutAll(data, hash, puts), hash, content)
  {
    var rest, last := puts[..|puts| - 1], puts[|puts| - 1];
    if last != content {
      assert content in rest;
      PutIsHeld(data, hash, content, rest);
      assert last in puts;
    }
  }
}
