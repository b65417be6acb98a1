/** generate_barcode's choice of file name: the barcode writer appends its
    own extension, so the path is cut at its first dot. */
module Barcode {
  import opened PyStr

  /** The extension the image writer appends to the name it is given. */
  const WriterExtension: string := ".png"

  /** The path the label composer opens and the one passed to the generator. */
  const BarcodeFile: string := "barcode" + WriterExtension

  /** file_path.split('.')[0]: the part of the path before its first dot,
      which is a dot-free prefix of the path, the whole path when it has no
      dot, and followed by a dot otherwise. */
  function BaseName(path: string): (r: string)
    ensures '.' !in r
    ensures r <= path
    ensures '.' !in path ==> r == path
    ensures '.' in path ==> |r| < |path| && path[|r|] == '.'
  {
    var parts := Split(path, '.');
    JoinSplit(path, '.');
    SplitPiecesFree(path, '.');
    assert parts == [parts[0]] + parts[1..];
    assert |parts| > 1 ==> Join(parts, '.') == parts[0] + ['.'] + Join(parts[1..], '.');
    assert '.' !in path ==> |parts| == 1 by {
      if |parts| > 1 {
        assert path[|parts[0]|] == '.';
      }
    }
    parts[0]
  }

  /** A dot-free name followed by an extension is cut back to the name. */
  lemma BaseNameOfDotted(name: string, ext: string)
    requires '.' !in name
    ensures BaseName(name + "." + ext) == name
  {
    var path := name + "." + ext;
    assert path[|name|] == '.';
    assert '.' in path;
    assert name == path[..|name|];
  }

  /** The generator saves to "barcode", the writer adds ".png", and that is
      the file the composer opens: the two file names agree. */
  lemma BarcodeFileAgrees()
    ensures BaseName(BarcodeFile) == "barcode"
    ensures BaseName(BarcodeFile) + WriterExtension == BarcodeFile
  {
    BaseNameOfDotted("barcode", "png");
  }
}
