/**
 * The glyph table of the text renderer: a map from character to the glyph
 * metadata (size, atlas texture coordinates, texture id) built from the list of
 * entries of the character configuration document, plus a synthetic blank
 * entry for the space character.
 *
 * The table is a map filled with its `insert`, which never overwrites an
 * existing key: the first entry for a character wins, and the blank entry is
 * added only when no entry already defines the space character. A lookup
 * through `operator[]` that misses adds the key, mapped to a null pointer.
 */
module Glyphs {

  datatype Option<T> = None | Some(value: T)

  /** The four normalized atlas coordinates of a glyph, in the order the document lists them. */
  datatype TexCoords = TexCoords(c0: real, c1: real, c2: real, c3: real)

  /** One parsed item of the "list" array of the character configuration document. */
  datatype CharEntry = CharEntry(value: string, width: int, height: int, texCoords: TexCoords, texture: string)

  /** Metadata of one glyph, as stored in the table. */
  datatype CharInfo = CharInfo(value: string, width: int, height: int, textureCoords: TexCoords, textureId: int)

  type CharTable = map<char, Option<CharInfo>>

  /** The key of a glyph: the first character of its value; an empty wide string yields its terminator, NUL. */
  function KeyOf(value: string): char
  {
    if |value| > 0 then value[0] else '\0'
  }

  /** The logical path of an atlas texture named by an entry. */
  function TexturePath(name: string): string
  {
    "text/" + name
  }

  /** The glyph built from one entry; `acquire` maps a texture path to the id of the loaded texture. */
  function InfoOf(e: CharEntry, acquire: string -> int): CharInfo
  {
    CharInfo(e.value, e.width, e.height, e.texCoords, acquire(TexturePath(e.texture)))
  }

  /** The blank glyph injected for the space character. */
  function BlankCharInfo(spaceWidth: int): CharInfo
  {
    CharInfo(" ", spaceWidth, 0, TexCoords(0.0, 0.0, 0.0, 0.0), 0)
  }

  /** The map's `insert`: adds `k` mapped to `v` unless `k` already has a value, which is then kept. */
  function InsertIfAbsent(m: CharTable, k: char, v: Option<CharInfo>): (r: CharTable)
    ensures r.Keys == m.Keys + {k}
    ensures forall k' :: k' in m ==> r[k'] == m[k']
    ensures k !in m ==> r[k] == v
  {
    if k in m then m else m[k := v]
  }

  /** The table after inserting every entry in order into an empty map. */
  function Table(entries: seq<CharEntry>, acquire: string -> int): CharTable
  {
    if entries == [] then map[]
    else
      var n := |entries| - 1;
      InsertIfAbsent(Table(entries[..n], acquire), KeyOf(entries[n].value), Some(InfoOf(entries[n], acquire)))
  }

  /** The table once the blank space entry has been inserted. */
  function WithBlank(m: CharTable, spaceWidth: int): CharTable
  {
    InsertIfAbsent(m, ' ', Some(BlankCharInfo(spaceWidth)))
  }

  /** No entry before index `i` has the same key as entry `i`. */
  predicate IsFirstWithKey(entries: seq<CharEntry>, i: int)
    requires 0 <= i < |entries|
  {
    forall j :: 0 <= j < i ==> KeyOf(entries[j].value) != KeyOf(entries[i].value)
  }

  /** Some entry has key `k`. */
  predicate HasKey(entries: seq<CharEntry>, k: char)
  {
    exists i :: 0 <= i < |entries| && KeyOf(entries[i].value) == k
  }

  /** The keys of the table are exactly the keys of the entries, and every value is non-null. */
  lemma {:induction false} TableKeys(entries: seq<CharEntry>, acquire: string -> int)
    ensures forall k :: k in Table(entries, acquire) <==> HasKey(entries, k)
    ensures forall k :: k in Table(entries, acquire) ==> Table(entries, acquire)[k].Some?
  {
    if entries != [] {
      var n := |entries| - 1;
      var prefix := entries[..n];
      TableKeys(prefix, acquire);
      forall k
        ensures HasKey(entries, k) <==> HasKey(prefix, k) || k == KeyOf(entries[n].value)
      {
        if HasKey(entries, k) {
          var i :| 0 <= i < |entries| && KeyOf(entries[i].value) == k;
          if i < n {
            assert prefix[i] == entries[i];
          }
        }
        if HasKey(prefix, k) {
          var i :| 0 <= i < |prefix| && KeyOf(prefix[i].value) == k;
          assert entries[i] == prefix[i];
        }
      }
    }
  }

  /**
   * The value stored for an entry's key is the glyph of the FIRST entry with that
   * key: a later entry with the same character does not overwrite it.
   */
  lemma {:induction false} TableFirstWins(entries: seq<CharEntry>, acquire: string -> int, i: int)
    requires 0 <= i < |entries| && IsFirstWithKey(entries, i)
    ensures KeyOf(entries[i].value) in Table(entries, acquire)
    ensures Table(entries, acquire)[KeyOf(entries[i].value)] == Some(InfoOf(entries[i], acquire))
  {
    var n := |entries| - 1;
    var prefix := entries[..n];
    var k := KeyOf(entries[i].value);
    if i < n {
      assert prefix[i] == entries[i];
      assert IsFirstWithKey(prefix, i) by {
        forall j | 0 <= j < i ensures KeyOf(prefix[j].value) != k {
          assert prefix[j] == entries[j];
        }
      }
      TableFirstWins(prefix, acquire, i);
    } else {
      TableKeys(prefix, acquire);
    }
  }

  /**
   * After the blank entry is added the space key is always present; it holds the
   * blank glyph exactly when no entry defines the space character, and otherwise
   * the first such entry's glyph.
   */
  lemma SpaceEntry(entries: seq<CharEntry>, acquire: string -> int, spaceWidth: int)
    ensures ' ' in WithBlank(Table(entries, acquire), spaceWidth)
    ensures !HasKey(entries, ' ') ==>
              WithBlank(Table(entries, acquire), spaceWidth)[' '] == Some(BlankCharInfo(spaceWidth))
    ensures forall i :: 0 <= i < |entries| && KeyOf(entries[i].value) == ' ' && IsFirstWithKey(entries, i) ==>
              WithBlank(Table(entries, acquire), spaceWidth)[' '] == Some(InfoOf(entries[i], acquire))
  {
    TableKeys(entries, acquire);
    forall i | 0 <= i < |entries| && KeyOf(entries[i].value) == ' ' && IsFirstWithKey(entries, i)
      ensures WithBlank(Table(entries, acquire), spaceWidth)[' '] == Some(InfoOf(entries[i], acquire))
    {
      TableFirstWins(entries, acquire, i);
    }
  }

  /**
   * The whole built table: its keys are the entries' keys plus the space, every
   * value is non-null, and every entry's key holds the first matching entry's glyph.
   */
  lemma BuiltTable(entries: seq<CharEntry>, acquire: string -> int, spaceWidth: int)
    ensures forall k :: k in WithBlank(Table(entries, acquire), spaceWidth) <==> HasKey(entries, k) || k == ' '
    ensures forall k :: k in WithBlank(Table(entries, acquire), spaceWidth) ==>
              WithBlank(Table(entries, acquire), spaceWidth)[k].Some?
    ensures forall i :: 0 <= i < |entries| && IsFirstWithKey(entries, i) ==>
              && KeyOf(entries[i].value) in WithBlank(Table(entries, acquire), spaceWidth)
              && WithBlank(Table(entries, acquire), spaceWidth)[KeyOf(entries[i].value)] == Some(InfoOf(entries[i], acquire))
  {
    TableKeys(entries, acquire);
    forall i | 0 <= i < |entries| && IsFirstWithKey(entries, i)
      ensures && KeyOf(entries[i].value) in WithBlank(Table(entries, acquire), spaceWidth)
              && WithBlank(Table(entries, acquire), spaceWidth)[KeyOf(entries[i].value)] == Some(InfoOf(entries[i], acquire))
    {
      TableFirstWins(entries, acquire, i);
    }
  }

  /**
   * `operator[]` on the table: the value under `ch` and the table afterwards. A hit
   * leaves the table as it was; a miss answers null and adds `ch` mapped to null.
   */
  function Find(m: CharTable, ch: char): (r: (Option<CharInfo>, CharTable))
    ensures r.1.Keys == m.Keys + {ch}
    ensures forall k :: k in m ==> r.1[k] == m[k]
    ensures r.1[ch] == r.0
    ensures ch in m ==> r.0 == m[ch] && r.1 == m
    ensures ch !in m ==> r.0 == None
  {
    if ch in m then (m[ch], m) else (None, m[ch := None])
  }

  /** A second lookup of the same character answers the same and changes nothing more. */
  lemma FindIdempotent(m: CharTable, ch: char)
    ensures Find(Find(m, ch).1, ch) == Find(m, ch)
  {
  }

  /**
   * Looking up the key of an entry in the built table returns that entry's glyph
   * (when it is the first with that key) and leaves the table unchanged.
   */
  lemma LookupAfterBuild(entries: seq<CharEntry>, acquire: string -> int, spaceWidth: int, i: int)
    requires 0 <= i < |entries| && IsFirstWithKey(entries, i)
    ensures var m := WithBlank(Table(entries, acquire), spaceWidth);
            Find(m, KeyOf(entries[i].value)) == (Some(InfoOf(entries[i], acquire)), m)
  {
    TableFirstWins(entries, acquire, i);
  }

  /** The text renderer's glyph state. */
  class TextRenderHelper {
    var charInfoMaps: CharTable
    var mainTextureId: int
    /** The advance of the blank space glyph. */
    const spaceWidth: int

    constructor (spaceWidth: int)
      ensures charInfoMaps == map[] && this.spaceWidth == spaceWidth
    {
      charInfoMaps := map[];
      mainTextureId := 0;
      this.spaceWidth := spaceWidth;
    }

    /**
     * Rebuilds the table from the parsed entries: clears it, inserts every entry in
     * order, then adds the blank space entry. The main texture id is the texture of
     * the last entry, or is left as it was when there are no entries.
     */
    method BuildTextCharConfig(entries: seq<CharEntry>, acquire: string -> int)
      modifies this`charInfoMaps, this`mainTextureId
      ensures charInfoMaps == WithBlank(Table(entries, acquire), spaceWidth)
      ensures mainTextureId ==
                if entries == [] then old(mainTextureId)
                else acquire(TexturePath(entries[|entries| - 1].texture))
    {
      charInfoMaps := map[];
      var i := 0;
      while i < |entries|
        invariant 0 <= i <= |entries|
        invariant charInfoMaps == Table(entries[..i], acquire)
        invariant mainTextureId ==
                    if i == 0 then old(mainTextureId) else acquire(TexturePath(entries[i - 1].texture))
      {
        var item := entries[i];
        var info := CharInfo(item.value, item.width, item.height, item.texCoords, acquire(TexturePath(item.texture)));
        mainTextureId := info.textureId;
        var key := KeyOf(info.value);
        if key !in charInfoMaps {
          charInfoMaps := charInfoMaps[key := Some(info)];
        }
        assert entries[..i + 1][..i] == entries[..i];
        i := i + 1;
      }
      assert entries[..i] == entries;
      AddSpecialTextCharInfo();
    }

    /** Inserts the blank space glyph unless the space character already has an entry. */
    method AddSpecialTextCharInfo()
      modifies this`charInfoMaps
      ensures charInfoMaps == WithBlank(old(charInfoMaps), spaceWidth)
    {
      var blank := CharInfo(" ", spaceWidth, 0, TexCoords(0.0, 0.0, 0.0, 0.0), 0);
      var key := KeyOf(blank.value);
      if key !in charInfoMaps {
        charInfoMaps := charInfoMaps[key := Some(blank)];
      }
    }

    /** Looks `ch` up through `operator[]`: a miss adds `ch` mapped to null. */
    method FindCharInfo(ch: char) returns (info: Option<CharInfo>)
      modifies this`charInfoMaps
      ensures (info, charInfoMaps) == Find(old(charInfoMaps), ch)
    {
      if ch !in charInfoMaps {
        charInfoMaps := charInfoMaps[ch := None];
      }
      info := charInfoMaps[ch];
    }
  }
}
