/** The conversion Lambda's choice of where to store the audio it extracts. */
module Converter {
  import opened Text

  /**
   * The output key for the input object `key`: the extension is cut at the
   * key's last dot, `.mp3` appended, and then only the last path segment kept.
   */
  function OutKey(key: string): (r: string)
    ensures EndsWith(r, ".mp3")
    ensures '/' !in r
  {
    var stem := BeforeLast(key, '.') + ".mp3";
    AfterLastKeepsSuffix(BeforeLast(key, '.'), '/', ".mp3");
    if '/' in stem then AfterLast(stem, '/') else stem
  }

  /** A name free of `/` that already ends in `.mp3` is its own output key. */
  lemma OutKeyOfAudioName(base: string)
    requires '/' !in base
    ensures OutKey(base + ".mp3") == base + ".mp3"
  {
    var name := base + ".mp3";
    assert name == base + ['.'] + "mp3";
    assert '.' !in "mp3";
    BeforeLastOfJoinAt(base, '.', "mp3");
    assert '/' !in name;
  }

  /** Converting an output key again leaves it unchanged. */
  lemma OutKeyIdempotent(key: string)
    ensures OutKey(OutKey(key)) == OutKey(key)
  {
    var r := OutKey(key);
    var base := r[..|r| - 4];
    assert r == base + ".mp3";
    assert forall i :: 0 <= i < |base| ==> base[i] == r[i];
    OutKeyOfAudioName(base);
  }

  /**
   * Under a directory free of dots, only the file name's extension is
   * replaced and the directory dropped: `user-uploads/1-x.mp4` gives `1-x.mp3`.
   */
  lemma OutKeyUnderDirectory(dir: string, name: string)
    requires '.' !in dir && '/' !in name
    ensures OutKey(dir + "/" + name) == BeforeLast(name, '.') + ".mp3"
  {
    BeforeLastOfJoin(dir + "/", '.', name);
    var b := BeforeLast(name, '.');
    assert forall c :: c in b ==> c in name;
    assert dir + "/" + b + ".mp3" == dir + ['/'] + (b + ".mp3");
    AfterLastOfJoin(dir, '/', b + ".mp3");
  }

  /**
   * The extension is cut before the directory is dropped, so a dot in a
   * directory name swallows the rest of the path: `stem.ext/name`, with no
   * dot after the one shown, is stored like `stem.mp3`; for `a.b/c` that is `a.mp3`.
   */
  lemma DotInDirectory(stem: string, ext: string, name: string)
    requires '.' !in ext && '.' !in name
    ensures OutKey(stem + "." + ext + "/" + name) == OutKey(stem + ".mp3")
    ensures '/' !in stem ==> OutKey(stem + "." + ext + "/" + name) == stem + ".mp3"
  {
    var rest := ext + "/" + name;
    assert stem + "." + ext + "/" + name == stem + ['.'] + rest;
    assert '.' !in rest;
    BeforeLastOfJoinAt(stem, '.', rest);
    assert stem + ".mp3" == stem + ['.'] + "mp3";
    assert '.' !in "mp3";
    BeforeLastOfJoinAt(stem, '.', "mp3");
    if '/' !in stem {
      OutKeyOfAudioName(stem);
    }
  }
}
