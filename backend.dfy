/**
 * The inference API's `/predict` endpoint: it checks the upload's file name, content type and
 * size, then turns the model's probability vector into a labelled response. The image
 * decoding and the network itself are inputs: whether the bytes decode, and the vector the
 * model returns for them.
 */
module Backend {
  import opened Common
  import opened Prediction

  const MaxFileSize: nat := 10 * 1024 * 1024

  const AllowedExtensions: set<string> := {"jpg", "jpeg", "png"}

  const ConfidenceThreshold: real := 0.60

  /** The label reported instead of a class when the model is not confident enough. */
  const LowConfidenceLabel: string := "Low Confidence Prediction"

  /** Why a request fails; all are answered with status 400 except an unhandled exception. */
  datatype ApiError =
    | InvalidFileType(ext: string)
    | NotAnImage
    | FileTooLarge(size: nat)
    | UnreadableImage
    | InternalError    // an exception the handler does not catch
  {
    function Status(): nat
    {
      if InternalError? then 500 else 400
    }
  }

  /** ASCII upper case to lower case; every other character is kept. */
  function LowerChar(c: char): (d: char)
    ensures !('A' <= d <= 'Z')
    ensures d != c ==> 'A' <= c <= 'Z' && d as int - c as int == 32
  {
    if 'A' <= c <= 'Z' then (c as int + 32) as char else c
  }

  /** `s.lower()`, for ASCII letters. */
  function Lower(s: string): (r: string)
    ensures |r| == |s|
    ensures forall i :: 0 <= i < |s| ==> r[i] == LowerChar(s[i])
  {
    if |s| == 0 then "" else [LowerChar(s[0])] + Lower(s[1..])
  }

  /** Lowering twice is lowering once. */
  lemma LowerIdempotent(s: string)
    ensures Lower(Lower(s)) == Lower(s)
  {
    assert forall i :: 0 <= i < |s| ==> LowerChar(LowerChar(s[i])) == LowerChar(s[i]);
  }

  /** `s.rsplit(".", 1)[-1]`: the longest suffix without a dot. */
  function AfterLastDot(s: string): (r: string)
    ensures |r| <= |s| && r == s[|s| - |r|..]
    ensures '.' !in r
    ensures |r| < |s| ==> s[|s| - |r| - 1] == '.'
    ensures '.' !in s ==> r == s
  {
    if |s| == 0 then ""
    else if s[|s| - 1] == '.' then ""
    else AfterLastDot(s[..|s| - 1]) + [s[|s| - 1]]
  }

  /** Lowering keeps exactly the dots where they were. */
  lemma LowerCharDot(c: char)
    ensures LowerChar(c) == '.' <==> c == '.'
  {
  }

  /** Lowering a prefix is a prefix of the lowered string. */
  lemma LowerPrefix(s: string, n: nat)
    requires n <= |s|
    ensures Lower(s)[..n] == Lower(s[..n])
  {
  }

  /** Lowering works character by character, so it distributes over concatenation. */
  lemma LowerAppend(a: string, c: char)
    ensures Lower(a + [c]) == Lower(a) + [LowerChar(c)]
  {
    assert forall i :: 0 <= i < |a| ==> (a + [c])[i] == a[i];
  }

  /** Lowering does not move dots, so it can be done before or after the split. */
  lemma {:induction false} LowerAfterLastDot(s: string)
    ensures AfterLastDot(Lower(s)) == Lower(AfterLastDot(s))
  {
    if |s| > 0 {
      var n := |s| - 1;
      var t := Lower(s);
      assert t[..n] == Lower(s[..n]) by { LowerPrefix(s, n); }
      assert t[n] == '.' <==> s[n] == '.' by { LowerCharDot(s[n]); }
      if s[n] != '.' {
        var r := AfterLastDot(s[..n]);
        assert AfterLastDot(t) == AfterLastDot(t[..n]) + [LowerChar(s[n])];
        assert AfterLastDot(t[..n]) == Lower(r) by { LowerAfterLastDot(s[..n]); }
        assert Lower(r + [s[n]]) == Lower(r) + [LowerChar(s[n])] by { LowerAppend(r, s[n]); }
      }
    }
  }

  /** The extension `validate_file` checks: empty when there is no file name. */
  function Extension(filename: Option<string>): (ext: string)
    ensures filename.None? || filename == Some("") ==> ext == ""
    ensures '.' !in ext
  {
    if filename.None? || filename.value == "" then ""
    else
      var ext := Lower(AfterLastDot(filename.value));
      assert forall i :: 0 <= i < |ext| ==> ext[i] != '.';
      ext
  }

  /** The extension does not depend on the case of the file name. */
  lemma ExtensionIgnoresCase(name: string)
    ensures Extension(Some(Lower(name))) == Extension(Some(name))
  {
    if name != "" {
      LowerAfterLastDot(name);
      LowerIdempotent(AfterLastDot(name));
    }
  }

  predicate StartsWith(s: string, prefix: string)
  {
    |prefix| <= |s| && s[..|prefix|] == prefix
  }

  datatype Check = Pass | Fail(error: ApiError)

  /**
   * `validate_file`: the extension must be an allowed one, and only then is the content type
   * (missing counts as empty) required to start with "image/".
   */
  function ValidateFile(filename: Option<string>, contentType: Option<string>): (check: Check)
    ensures check.Pass? <==>
      Extension(filename) in AllowedExtensions
      && contentType.Some? && StartsWith(contentType.value, "image/")
    ensures Extension(filename) !in AllowedExtensions ==> check == Fail(InvalidFileType(Extension(filename)))
    ensures check.Fail? ==> check.error.InvalidFileType? || check.error == NotAnImage
  {
    var ext := Extension(filename);
    if ext !in AllowedExtensions then Fail(InvalidFileType(ext))
    else
      var ct := if contentType.Some? then contentType.value else "";
      if !StartsWith(ct, "image/") then Fail(NotAnImage) else Pass
  }

  /** Upper-case extensions pass exactly when their lower-case spelling does. */
  lemma ValidateFileIgnoresCase(name: string, contentType: Option<string>)
    ensures ValidateFile(Some(Lower(name)), contentType) == ValidateFile(Some(name), contentType)
  {
    ExtensionIgnoresCase(name);
  }

  /** `np.argmax`: the first index of a largest element. */
  function ArgMax(s: seq<real>): (k: nat)
    requires |s| > 0
    ensures k < |s|
    ensures forall j :: 0 <= j < |s| ==> s[j] <= s[k]
    ensures forall j :: 0 <= j < k ==> s[j] < s[k]
  {
    if |s| == 1 then 0
    else
      var k := ArgMax(s[..|s| - 1]);
      if s[|s| - 1] > s[k] then |s| - 1 else k
  }

  /**
   * `{class_names[i]: round(probabilities[i], 4) for i in range(len(class_names))}`, built
   * left to right: one key per class name.
   */
  function ProbabilityMap(names: seq<string>, probs: seq<real>): (m: map<string, real>)
    requires |names| <= |probs|
    ensures m.Keys == set i | 0 <= i < |names| :: names[i]
  {
    if |names| == 0 then map[]
    else
      var n := |names| - 1;
      var m := ProbabilityMap(names[..n], probs);
      assert forall i :: 0 <= i < n ==> names[..n][i] == names[i];
      m[names[n] := Round4(probs[n])]
  }

  /** A class name gets the rounded probability of its last occurrence. */
  lemma {:induction false} ProbabilityMapLastWins(names: seq<string>, probs: seq<real>, i: nat)
    requires |names| <= |probs| && i < |names|
    requires forall j :: i < j < |names| ==> names[j] != names[i]
    ensures names[i] in ProbabilityMap(names, probs)
    ensures ProbabilityMap(names, probs)[names[i]] == Round4(probs[i])
  {
    var n := |names| - 1;
    if i < n {
      var prefix := names[..n];
      assert prefix[i] == names[i];
      assert forall j :: i < j < n ==> prefix[j] == names[j];
      ProbabilityMapLastWins(prefix, probs, i);
    }
  }

  /** Class names listed once each get their own rounded probabilities. */
  lemma ProbabilityMapOfDistinct(names: seq<string>, probs: seq<real>)
    requires |names| <= |probs| && Distinct(names)
    ensures forall i :: 0 <= i < |names| ==>
      names[i] in ProbabilityMap(names, probs) && ProbabilityMap(names, probs)[names[i]] == Round4(probs[i])
  {
    forall i | 0 <= i < |names|
      ensures names[i] in ProbabilityMap(names, probs) && ProbabilityMap(names, probs)[names[i]] == Round4(probs[i])
    {
      ProbabilityMapLastWins(names, probs, i);
    }
  }

  /** The file as the endpoint receives it; only the length of its contents matters here. */
  datatype Upload = Upload(filename: Option<string>, contentType: Option<string>, size: nat)

  /** The model output can be read: a non-empty vector with one value per class name at least, whose maximum names a class. */
  predicate Readable(probabilities: seq<real>, classNames: seq<string>)
  {
    |probabilities| > 0 && |classNames| <= |probabilities| && ArgMax(probabilities) < |classNames|
  }

  /**
   * `predict`: validation, the size bound, decoding, then the decision. `decodes` says whether
   * the image library can open the bytes, and `probabilities` is what the model returns.
   */
  method HandlePredict(upload: Upload, decodes: bool, probabilities: seq<real>, classNames: seq<string>)
    returns (response: Result<PredictionResult, ApiError>)
    ensures var check := ValidateFile(upload.filename, upload.contentType);
      check.Fail? ==> response == Err(check.error)
    ensures ValidateFile(upload.filename, upload.contentType).Pass? && upload.size > MaxFileSize
      ==> response == Err(FileTooLarge(upload.size))
    ensures ValidateFile(upload.filename, upload.contentType).Pass? && upload.size <= MaxFileSize && !decodes
      ==> response == Err(UnreadableImage)
    ensures response.Ok? <==>
      ValidateFile(upload.filename, upload.contentType).Pass? && upload.size <= MaxFileSize && decodes
      && Readable(probabilities, classNames)
    ensures (ValidateFile(upload.filename, upload.contentType).Pass? && upload.size <= MaxFileSize && decodes
      && !Readable(probabilities, classNames)) ==> response == Err(InternalError)
    ensures response.Err? && response.error != InternalError ==> response.error.Status() == 400
    ensures response.Ok? ==>
      var k := ArgMax(probabilities);
      && response.value.prediction
         == (if probabilities[k] >= ConfidenceThreshold then classNames[k] else LowConfidenceLabel)
      && response.value.confidence == Round4(probabilities[k])
      && response.value.allProbabilities == ProbabilityMap(classNames, probabilities)
      && response.value.gradcamUrl == None
  {
    var check := ValidateFile(upload.filename, upload.contentType);
    if check.Fail? {
      return Err(check.error);
    }
    if upload.size > MaxFileSize {
      return Err(FileTooLarge(upload.size));
    }
    if !decodes {
      return Err(UnreadableImage);
    }
    if |probabilities| == 0 {
      // np.argmax of an empty vector raises
      return Err(InternalError);
    }
    var predictedIndex := ArgMax(probabilities);
    var confidence := probabilities[predictedIndex];
    if predictedIndex >= |classNames| {
      // class_names[predicted_index] raises IndexError
      return Err(InternalError);
    }
    var predictedClass := classNames[predictedIndex];
    if |probabilities| < |classNames| {
      // the comprehension reads past the end of the vector
      return Err(InternalError);
    }
    var allProbabilities := ProbabilityMap(classNames, probabilities);
    if confidence < ConfidenceThreshold {
      predictedClass := LowConfidenceLabel;
    }
    response := Ok(PredictionResult(predictedClass, Round4(confidence), allProbabilities, None));
  }
}
