/**
 * `_get_file_hash` / `get_file_hash`: the file is read in blocks of 8192 bytes
 * and each block is fed to the hasher, whose final digest is the file's hash.
 * MD5 itself is not modelled: the hasher's state, its update step and its
 * digest are parameters.
 */
module FileHash {
  /** A byte of the file. */
  type Byte = bv8

  /** `f.read(8192)` */
  const BlockSize := 8192

  /** The blocks successive reads return: full blocks, then the shorter rest, if any. */
  function Blocks(content: seq<Byte>): (r: seq<seq<Byte>>)
    decreases |content|
  {
    if |content| == 0 then []
    else if |content| <= BlockSize then [content]
    else [content[..BlockSize]] + Blocks(content[BlockSize..])
  }

  /** The blocks laid end to end. */
  function Concat(blocks: seq<seq<Byte>>): seq<Byte>
    decreases |blocks|
  {
    if blocks == [] then [] else blocks[0] + Concat(blocks[1..])
  }

  /** `hasher.update(chunk)` for each block in turn. */
  function Feed<H>(h: H, update: (H, seq<Byte>) -> H, blocks: seq<seq<Byte>>): H
    decreases |blocks|
  {
    if blocks == [] then h else Feed(update(h, blocks[0]), update, blocks[1..])
  }

  /** The reads cover the file exactly, in order, and every block but the last is full. */
  lemma {:induction false} BlocksCoverFile(content: seq<Byte>)
    ensures Concat(Blocks(content)) == content
    ensures forall k | 0 <= k < |Blocks(content)| :: 0 < |Blocks(content)[k]| <= BlockSize
    ensures forall k | 0 <= k < |Blocks(content)| - 1 :: |Blocks(content)[k]| == BlockSize
    decreases |content|
  {
    if |content| > BlockSize {
      var rest := content[BlockSize..];
      BlocksCoverFile(rest);
      var bs := Blocks(content);
      assert bs == [content[..BlockSize]] + Blocks(rest);
      assert bs[1..] == Blocks(rest);
      assert content == content[..BlockSize] + rest;
      forall k | 0 <= k < |bs| ensures 0 < |bs[k]| <= BlockSize {
        if k > 0 {
          assert bs[k] == Blocks(rest)[k - 1];
        }
      }
      forall k | 0 <= k < |bs| - 1 ensures |bs[k]| == BlockSize {
        if k > 0 {
          assert bs[k] == Blocks(rest)[k - 1];
        }
      }
    } else if |content| > 0 {
      assert Blocks(content) == [content];
      assert Concat([content]) == content + Concat([]);
    }
  }

  /**
   * The `while chunk := f.read(8192)` loop: reading stops at the first empty
   * read, so every block fed is non-empty, and the hasher sees them in order.
   */
  method HashFile<H>(content: seq<Byte>, start: H, update: (H, seq<Byte>) -> H, digest: H -> string)
    returns (hash: string)
    ensures hash == digest(Feed(start, update, Blocks(content)))
  {
    var h := start;
    var pos := 0;
    while pos < |content|
      invariant 0 <= pos <= |content|
      invariant Feed(h, update, Blocks(content[pos..])) == Feed(start, update, Blocks(content))
      decreases |content| - pos
    {
      var end := if |content| - pos <= BlockSize then |content| else pos + BlockSize;
      var chunk := content[pos..end];
      ReadStep(content, pos, end);
      h := update(h, chunk);
      pos := end;
    }
    assert content[pos..] == [];
    hash := digest(h);
  }

  /** One read: the block at `pos` is the first of the rest's blocks. */
  lemma ReadStep(content: seq<Byte>, pos: nat, end: nat)
    requires pos < |content|
    requires end == if |content| - pos <= BlockSize then |content| else pos + BlockSize
    ensures Blocks(content[pos..]) == [content[pos..end]] + Blocks(content[end..])
  {
    var rest := content[pos..];
    if |rest| <= BlockSize {
      assert content[end..] == [];
      assert rest == content[pos..end];
    } else {
      assert rest[..BlockSize] == content[pos..end];
      assert rest[BlockSize..] == content[end..];
    }
  }
}
