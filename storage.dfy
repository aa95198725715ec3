/**
 * Object-store keys and the volume paths the inference service reads inputs from
 * (`upload_to_s3` and the key formats of `edit_single_image` / `edit_dual_image`).
 */
module Storage {
  import opened Wrappers
  import opened Text

  /** Where the network volume is mounted inside the inference worker. */
  const VolumeRoot := "/runpod-volume/"
  /** Namespace under which every client upload is stored. */
  const KeyPrefix := "input/qwen/"

  /** Storage reference for a key: the volume mount followed by the key. */
  function VolumePath(key: string): (path: string)
    ensures |path| == |VolumeRoot| + |key|
    ensures path[..|VolumeRoot|] == VolumeRoot && path[|VolumeRoot|..] == key
    ensures path == "/runpod-volume/" + key
  {
    VolumeRoot + key
  }

  /** Two keys give the same storage reference only if they are the same key. */
  lemma VolumePathInjective(k1: string, k2: string)
    requires VolumePath(k1) == VolumePath(k2)
    ensures k1 == k2
  {
    assert k1 == VolumePath(k1)[|VolumeRoot|..];
  }

  /**
   * `input/qwen/<ts><tag><basename>`: the shape shared by every upload key. The object lands
   * directly under `input/qwen/`, named by the timestamp, the tag and the file's basename;
   * the local directory of the file never reaches the key.
   */
  function TaggedKey(timestamp: int, tag: string, imagePath: string): (key: string)
    ensures |KeyPrefix| <= |key| && key[..|KeyPrefix|] == KeyPrefix
    ensures EndsWith(key, Basename(imagePath))
    ensures '/' !in tag ==> Basename(key) == IntToString(timestamp) + tag + Basename(imagePath)
  {
    var name := IntToString(timestamp) + tag + Basename(imagePath);
    ObjectName(timestamp, tag, imagePath);
    AppendAssoc(KeyPrefix, IntToString(timestamp) + tag, Basename(imagePath));
    KeyPrefix + name
  }

  lemma ObjectName(timestamp: int, tag: string, imagePath: string)
    ensures '/' !in tag ==>
      Basename(KeyPrefix + (IntToString(timestamp) + tag + Basename(imagePath))) == IntToString(timestamp) + tag + Basename(imagePath)
  {
    if '/' !in tag {
      IntToStringNoSlash(timestamp);
      BasenameOfSuffix(KeyPrefix, IntToString(timestamp) + tag + Basename(imagePath));
    }
  }

  lemma NoSlash(tag: string)
    requires forall i :: 0 <= i < |tag| ==> tag[i] == '_' || 'a' <= tag[i] <= 'z'
    ensures '/' !in tag
  {
  }

  /** Key of a single-image upload: `input/qwen/<ts>_<basename>`. */
  function SingleKey(timestamp: int, imagePath: string): (key: string)
    ensures |KeyPrefix| <= |key| && key[..|KeyPrefix|] == KeyPrefix
    ensures EndsWith(key, Basename(imagePath))
    ensures Basename(key) == IntToString(timestamp) + "_" + Basename(imagePath)
  {
    NoSlash("_");
    TaggedKey(timestamp, "_", imagePath)
  }

  /** Key of the donor (first) image of a dual edit: `input/qwen/<ts>_donor_<basename>`. */
  function DonorKey(timestamp: int, imagePath: string): (key: string)
    ensures |KeyPrefix| <= |key| && key[..|KeyPrefix|] == KeyPrefix
    ensures EndsWith(key, Basename(imagePath))
    ensures Basename(key) == IntToString(timestamp) + "_donor_" + Basename(imagePath)
  {
    NoSlash("_donor_");
    TaggedKey(timestamp, "_donor_", imagePath)
  }

  /** Key of the canvas (second) image of a dual edit: `input/qwen/<ts>_canvas_<basename>`. */
  function CanvasKey(timestamp: int, imagePath: string): (key: string)
    ensures |KeyPrefix| <= |key| && key[..|KeyPrefix|] == KeyPrefix
    ensures EndsWith(key, Basename(imagePath))
    ensures Basename(key) == IntToString(timestamp) + "_canvas_" + Basename(imagePath)
  {
    NoSlash("_canvas_");
    TaggedKey(timestamp, "_canvas_", imagePath)
  }

  /**
   * The object names inside `input/qwen/`: single, donor and canvas uploads are named by the
   * timestamp, their role and the file's basename.
   */
  lemma KeyObjectNames(timestamp: int, imagePath: string)
    ensures Basename(SingleKey(timestamp, imagePath)) == IntToString(timestamp) + "_" + Basename(imagePath)
    ensures Basename(DonorKey(timestamp, imagePath)) == IntToString(timestamp) + "_donor_" + Basename(imagePath)
    ensures Basename(CanvasKey(timestamp, imagePath)) == IntToString(timestamp) + "_canvas_" + Basename(imagePath)
  {
    NoSlash("_");
    NoSlash("_donor_");
    NoSlash("_canvas_");
  }

  /** The storage reference of every upload, written out in full. */
  lemma ReferenceFormat(timestamp: int, tag: string, imagePath: string)
    ensures VolumePath(TaggedKey(timestamp, tag, imagePath)) ==
      "/runpod-volume/input/qwen/" + (IntToString(timestamp) + tag + Basename(imagePath))
  {
    var name := IntToString(timestamp) + tag + Basename(imagePath);
    assert TaggedKey(timestamp, tag, imagePath) == KeyPrefix + name;
    AppendAssoc(VolumeRoot, KeyPrefix, name);
    RootAndPrefix();
  }

  lemma RootAndPrefix()
    ensures VolumeRoot + KeyPrefix == "/runpod-volume/input/qwen/"
  {
  }

  lemma AppendAssoc(a: string, b: string, c: string)
    ensures a + (b + c) == (a + b) + c
  {
  }

  lemma DropPrefix(pre: string, x: string, y: string)
    requires pre + x == pre + y
    ensures x == y
  {
    assert x == (pre + x)[|pre|..];
  }

  /**
   * A single-image key determines both the upload second and the file name, so two
   * uploads collide only when they happen in the same second with the same basename.
   */
  lemma SingleKeyInjective(t1: int, p1: string, t2: int, p2: string)
    requires SingleKey(t1, p1) == SingleKey(t2, p2)
    ensures t1 == t2 && Basename(p1) == Basename(p2)
  {
    var d1, d2 := IntToString(t1), IntToString(t2);
    DropPrefix(KeyPrefix, d1 + "_" + Basename(p1), d2 + "_" + Basename(p2));
    IntToStringNoUnderscore(t1);
    IntToStringNoUnderscore(t2);
    SplitAtFirst(d1, Basename(p1), d2, Basename(p2), '_');
    IntToStringInjective(t1, t2);
  }

  /** The two uploads of a dual edit never overwrite each other, even for equal file names. */
  lemma DualKeysDistinct(timestamp: int, donorPath: string, canvasPath: string)
    ensures DonorKey(timestamp, donorPath) != CanvasKey(timestamp, canvasPath)
  {
    var donor := IntToString(timestamp) + "_donor_" + Basename(donorPath);
    var canvas := IntToString(timestamp) + "_canvas_" + Basename(canvasPath);
    RolesDiffer(IntToString(timestamp), Basename(donorPath), Basename(canvasPath));
    if KeyPrefix + donor == KeyPrefix + canvas {
      DropPrefix(KeyPrefix, donor, canvas);
    }
  }

  /** Hence the two storage references sent in one dual-edit input always differ. */
  lemma DualReferencesDistinct(timestamp: int, donorPath: string, canvasPath: string)
    ensures VolumePath(DonorKey(timestamp, donorPath)) != VolumePath(CanvasKey(timestamp, canvasPath))
  {
    DualKeysDistinct(timestamp, donorPath, canvasPath);
    if VolumePath(DonorKey(timestamp, donorPath)) == VolumePath(CanvasKey(timestamp, canvasPath)) {
      VolumePathInjective(DonorKey(timestamp, donorPath), CanvasKey(timestamp, canvasPath));
    }
  }

  lemma RolesDiffer(d: string, donor: string, canvas: string)
    ensures d + "_donor_" + donor != d + "_canvas_" + canvas
  {
    assert (d + "_donor_" + donor)[|d| + 1] == 'd';
    assert (d + "_canvas_" + canvas)[|d| + 1] == 'c';
  }

  /** What one call of `upload_to_s3` does: whether it reached the store, and what it returned. */
  datatype Upload = Upload(storeCalled: bool, path: Option<string>)

  /**
   * `upload_to_s3(file_path, s3_key)`. `fileExists` is the answer of the existence check and
   * `storeAccepts` whether the store's upload call returned without raising.
   */
  function UploadToS3(fileExists: bool, key: string, storeAccepts: bool): (u: Upload)
    ensures !fileExists ==> !u.storeCalled && u.path == None
    ensures fileExists ==> u.storeCalled
    ensures u.path.Some? <==> fileExists && storeAccepts
    ensures u.path.Some? ==> u.path.value == VolumeRoot + key
  {
    if !fileExists then Upload(false, None)
    else if !storeAccepts then Upload(true, None)
    else Upload(true, Some(VolumePath(key)))
  }
}
