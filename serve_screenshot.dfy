/**
 * The HTTP endpoint that serves a stored PNG: `GET ?file=<name>` answers with
 * the bytes of `screenshots/<name>` under the working directory, after
 * refusing every method but GET, a missing or repeated `file` parameter, and any
 * name that is not a plain `.png` file name.
 */
module ServeScreenshot {
  import opened Wrappers
  import opened Text

  newtype byte = x: int | 0 <= x < 256

  /** `req.query.file`: missing, given once (a string), or given several times (an array). */
  datatype QueryValue = Absent | Single(value: string) | Repeated(values: seq<string>)

  /** A JSON `{ error }` object, or the raw bytes of a file. */
  datatype Body = Json(error: string) | Bytes(data: seq<byte>)

  datatype Response = Response(status: nat, headers: seq<(string, string)>, body: Body)

  /** One year, in seconds. */
  const CacheControl: string := "public, max-age=31536000"

  /** The headers of a successful answer. */
  const PngHeaders: seq<(string, string)> := [("Content-Type", "image/png"), ("Cache-Control", CacheControl)]

  /** A name of at least four characters ending in `.png`, with no slash and no two dots in a row. */
  ghost predicate PlainPngName(file: string) {
    && |file| >= 4
    && file[|file| - 4..] == ".png"
    && (forall i :: 0 <= i < |file| ==> file[i] != '/')
    && (forall i :: 0 <= i < |file| - 1 ==> !(file[i] == '.' && file[i + 1] == '.'))
  }

  /** `includes('..')` finds a dot followed by a dot. */
  lemma DoubleDot(s: string)
    ensures Contains(s, "..") <==> exists i :: 0 <= i < |s| - 1 && s[i] == '.' && s[i + 1] == '.'
  {
    ContainsIff(s, "..");
    if exists i :: OccursAt(s, "..", i) {
      var i :| OccursAt(s, "..", i);
      assert s[i] == s[i..i + 2][0] && s[i + 1] == s[i..i + 2][1];
    }
    if exists i :: 0 <= i < |s| - 1 && s[i] == '.' && s[i + 1] == '.' {
      var i :| 0 <= i < |s| - 1 && s[i] == '.' && s[i + 1] == '.';
      assert s[i..i + 2] == "..";
      assert OccursAt(s, "..", i);
    }
  }

  /**
   * The check the handler makes (ends in `.png`, no `..`, no `/`): it accepts
   * exactly the plain `.png` names.
   */
  function SafeFileName(file: string): (ok: bool)
    ensures ok <==> PlainPngName(file)
  {
    DoubleDot(file);
    ContainsChar(file, '/');
    assert "/" == ['/'];
    EndsWith(file, ".png") && !Contains(file, "..") && !Contains(file, "/")
  }

  /** `path.join(process.cwd(), 'screenshots', file)`, relative to the working directory. */
  function ServedPath(file: string): string {
    "screenshots/" + file
  }

  /**
   * A name that passes the check is joined without normalisation: the path is the
   * `screenshots` directory, one separator, and a last component that is neither
   * `.` nor `..`, so the file read is a direct child of that directory.
   */
  lemma AcceptedNameIsDirectChild(file: string)
    requires SafeFileName(file)
    ensures StartsWith(ServedPath(file), "screenshots/")
    ensures forall i :: 12 <= i < |ServedPath(file)| ==> ServedPath(file)[i] != '/'
    ensures file != "." && file != ".."
  {
    var p := ServedPath(file);
    forall i | 12 <= i < |p| ensures p[i] != '/' {
      assert p[i] == file[i - 12];
    }
  }

  /**
   * `handler(req, res)`. `readFile` is the file system: `None` when
   * `fs.readFile` throws (a missing or unreadable file).
   */
  function Handler(verb: string, file: QueryValue, readFile: string -> Option<seq<byte>>): (r: Response)
    ensures r.status == 405 <==> verb != "GET"
    ensures r.status == 400 <==> verb == "GET" && !(file.Single? && PlainPngName(file.value))
    ensures r.status == 404 <==> verb == "GET" && file.Single? && PlainPngName(file.value)
                                   && readFile(ServedPath(file.value)).None?
    ensures r.status == 200 <==> verb == "GET" && file.Single? && PlainPngName(file.value)
                                   && readFile(ServedPath(file.value)).Some?
    ensures r.status == 200 ==> r.headers == PngHeaders && r.body == Bytes(readFile(ServedPath(file.value)).value)
    ensures r.status != 200 ==> r.headers == [] && r.body.Json?
    ensures r.status == 400 ==> (r.body.error == "Invalid file parameter" <==> !file.Single?)
  {
    if verb != "GET" then Response(405, [], Json("Method not allowed"))
    else if !file.Single? then Response(400, [], Json("Invalid file parameter"))
    else if !SafeFileName(file.value) then Response(400, [], Json("Invalid file name"))
    else match readFile(ServedPath(file.value))
      case None => Response(404, [], Json("Screenshot not found"))
      case Some(data) => Response(200, PngHeaders, Bytes(data))
  }

  /**
   * The answer depends on the file system only through the one path the
   * accepted name is joined to; a refused request reads nothing.
   */
  lemma ReadsOnlyServedPath(verb: string, file: QueryValue, read1: string -> Option<seq<byte>>, read2: string -> Option<seq<byte>>)
    requires file.Single? && SafeFileName(file.value) ==> read1(ServedPath(file.value)) == read2(ServedPath(file.value))
    ensures Handler(verb, file, read1) == Handler(verb, file, read2)
  {
  }

  /** Concrete requests: a traversal attempt, a name with a directory part and a POST are refused. */
  lemma RefusedNames(readFile: string -> Option<seq<byte>>)
    ensures Handler("GET", Single("../secret.png"), readFile).status == 400
    ensures Handler("GET", Single("a/b.png"), readFile).status == 400
    ensures Handler("POST", Single("shot.png"), readFile).status == 405
  {
    var t := "../secret.png";
    assert t[0] == '.' && t[1] == '.';
    var d := "a/b.png";
    assert d[1] == '/';
  }
}
