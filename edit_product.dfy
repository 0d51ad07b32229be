/** The admin product editor (frontend/src/components/Admin/EditProductPage.jsx):
    the form state, the comma-separated size and color fields, and the
    image list. Every handler builds a new form from the old one. */
module EditProduct {
  import opened IdLists
  import opened Seqs

  /** The characters `String.prototype.trim` removes: the white space and
      line terminators of ECMAScript. */
  predicate IsSpace(c: char) {
    || c == ' ' || c == '\t' || c == '\n' || c == '\r' || c == '\U{000B}' || c == '\U{000C}'
    || c == '\U{00A0}' || c == '\U{1680}' || ('\U{2000}' <= c <= '\U{200A}')
    || c == '\U{2028}' || c == '\U{2029}' || c == '\U{202F}' || c == '\U{205F}'
    || c == '\U{3000}' || c == '\U{FEFF}'
  }

  predicate CommaFree(s: string) {
    forall i :: 0 <= i < |s| ==> s[i] != ','
  }

  /** No white space at either end. */
  predicate Trimmed(s: string) {
    s == [] || (!IsSpace(s[0]) && !IsSpace(s[|s| - 1]))
  }

  /** `s.split(",")`: the pieces between commas, in order, always at least
      one, and the empty string gives `[""]`. */
  function Split(s: string): (parts: seq<string>)
    ensures |parts| >= 1
    ensures forall k :: 0 <= k < |parts| ==> CommaFree(parts[k])
    ensures CommaFree(s) ==> parts == [s]
    decreases |s|
  {
    if s == [] then [""]
    else if s[0] == ',' then [""] + Split(s[1..])
    else
      var rest := Split(s[1..]);
      assert CommaFree(s) ==> CommaFree(s[1..]) by {
        if CommaFree(s) {
          forall i | 0 <= i < |s[1..]| ensures s[1..][i] != ',' {
            assert s[1..][i] == s[i + 1];
          }
        }
      }
      assert CommaFree(s) ==> [s[0]] + s[1..] == s;
      [[s[0]] + rest[0]] + rest[1..]
  }

  /** `parts.join(sep)`. */
  function Join(parts: seq<string>, sep: string): string
    decreases |parts|
  {
    if parts == [] then ""
    else if |parts| == 1 then parts[0]
    else parts[0] + sep + Join(parts[1..], sep)
  }

  /** Joining the pieces back with commas gives the text that was split. */
  lemma {:induction false} SplitJoin(s: string)
    ensures Join(Split(s), ",") == s
    decreases |s|
  {
    if s == [] {
    } else if s[0] == ',' {
      SplitJoin(s[1..]);
      assert s == [','] + s[1..];
    } else {
      var rest := Split(s[1..]);
      SplitJoin(s[1..]);
      if |rest| == 1 {
        assert s == [s[0]] + s[1..];
      } else {
        assert Join(rest, ",") == rest[0] + "," + Join(rest[1..], ",");
        assert s == [s[0]] + s[1..];
      }
    }
  }

  /** The first character of a non-empty piece, and what follows it. */
  lemma CommaTail(x: string, y: string)
    requires x != []
    ensures (x + "," + y)[0] == x[0]
    ensures (x + "," + y)[1..] == x[1..] + "," + y
  {
  }

  lemma CommaFreeTail(x: string)
    requires CommaFree(x) && x != []
    ensures CommaFree(x[1..])
  {
    forall i | 0 <= i < |x[1..]| ensures x[1..][i] != ',' {
      assert x[1..][i] == x[i + 1];
    }
  }

  /** A comma ends the first piece. */
  lemma {:induction false} SplitAtComma(x: string, y: string)
    requires CommaFree(x)
    ensures Split(x + "," + y) == [x] + Split(y)
    decreases |x|
  {
    if x == [] {
      EmptyAppend(",");
      assert x + "," + y == [','] + y;
      DropCons(',', y);
    } else {
      CommaTail(x, y);
      CommaFreeTail(x);
      SplitAtComma(x[1..], y);
      DropCons(x[1..], Split(y));
      HeadTail(x);
    }
  }

  /** Splitting comma-free pieces joined with commas gives the pieces
      back: with `SplitJoin`, `Split` and joining with commas are inverse. */
  lemma {:induction false} JoinSplit(parts: seq<string>)
    requires parts != [] && AllCommaFree(parts)
    ensures Split(Join(parts, ",")) == parts
    decreases |parts|
  {
    if |parts| == 1 {
      Singleton(parts);
    } else {
      var rest := parts[1..];
      assert AllCommaFree(rest) by {
        forall k | 0 <= k < |rest| ensures CommaFree(rest[k]) {
          assert rest[k] == parts[k + 1];
        }
      }
      JoinSplit(rest);
      SplitAtComma(parts[0], Join(rest, ","));
      HeadTail(parts);
    }
  }

  /** `s` without its leading white space. */
  function TrimStart(s: string): (r: string)
    ensures |r| <= |s| && r == s[|s| - |r|..]
    ensures r == [] || !IsSpace(r[0])
    ensures forall k :: 0 <= k < |s| - |r| ==> IsSpace(s[k])
    ensures forall c :: c in r ==> c in s
    ensures s == [] || !IsSpace(s[0]) ==> r == s
    decreases |s|
  {
    if s != [] && IsSpace(s[0]) then
      assert forall c :: c in s[1..] ==> c in s;
      TrimStart(s[1..])
    else s
  }

  /** `s` without its trailing white space. */
  function TrimEnd(s: string): (r: string)
    ensures |r| <= |s| && r == s[..|r|]
    ensures r == [] || !IsSpace(r[|r| - 1])
    ensures forall k :: |r| <= k < |s| ==> IsSpace(s[k])
    ensures s == [] || !IsSpace(s[0]) ==> r == [] || !IsSpace(r[0])
    ensures forall c :: c in r ==> c in s
    ensures s == [] || !IsSpace(s[|s| - 1]) ==> r == s
    decreases |s|
  {
    if s != [] && IsSpace(s[|s| - 1]) then
      assert forall c :: c in s[..|s| - 1] ==> c in s;
      TrimEnd(s[..|s| - 1])
    else s
  }

  /** `s.trim()`: the slice of `s` left once the white space at both ends
      is cut off; it has none at either end, and it is the whole of `s`
      when `s` already had none. */
  function Trim(s: string): (r: string)
    ensures Trimmed(r)
    ensures exists i, j :: 0 <= i <= j <= |s| && r == s[i..j] && forall k :: 0 <= k < i || j <= k < |s| ==> IsSpace(s[k])
    ensures forall i :: 0 <= i < |r| ==> r[i] in s
    ensures Trimmed(s) ==> r == s
  {
    TrimFacts(s);
    TrimEnd(TrimStart(s))
  }

  /** What cutting the blank prefix and then the blank suffix leaves. */
  lemma TrimFacts(s: string)
    ensures Trimmed(TrimEnd(TrimStart(s)))
    ensures exists i, j :: 0 <= i <= j <= |s| && TrimEnd(TrimStart(s)) == s[i..j] && forall k :: 0 <= k < i || j <= k < |s| ==> IsSpace(s[k])
    ensures forall i :: 0 <= i < |TrimEnd(TrimStart(s))| ==> TrimEnd(TrimStart(s))[i] in s
    ensures Trimmed(s) ==> TrimEnd(TrimStart(s)) == s
  {
    var t := TrimStart(s);
    var r := TrimEnd(t);
    TrimSlice(s, t, r);
    forall i | 0 <= i < |r| ensures r[i] in s {
      assert r[i] in t;
    }
  }

  /** Cutting a blank prefix and then a blank suffix leaves a slice with
      only blanks around it. */
  lemma TrimSlice(s: string, t: string, r: string)
    requires |t| <= |s| && t == s[|s| - |t|..]
    requires forall k :: 0 <= k < |s| - |t| ==> IsSpace(s[k])
    requires |r| <= |t| && r == t[..|r|]
    requires forall k :: |r| <= k < |t| ==> IsSpace(t[k])
    ensures exists i, j :: 0 <= i <= j <= |s| && r == s[i..j] && forall k :: 0 <= k < i || j <= k < |s| ==> IsSpace(s[k])
  {
    var i := |s| - |t|;
    var j := i + |r|;
    forall k | j <= k < |s| ensures IsSpace(s[k]) {
      assert s[k] == t[k - i];
    }
    assert r == s[i..j];
  }

  /** An entry `ParseList` can produce. */
  predicate CleanEntry(x: string) {
    x != "" && Trimmed(x) && CommaFree(x)
  }

  /** A list whose entries could have come out of `ParseList`. */
  predicate CleanList(list: seq<string>) {
    forall k :: 0 <= k < |list| ==> CleanEntry(list[k])
  }

  predicate AllCommaFree(parts: seq<string>) {
    forall k :: 0 <= k < |parts| ==> CommaFree(parts[k])
  }

  /** The trimmed piece, or nothing when it is blank. */
  function CleanPiece(piece: string): (r: seq<string>)
    ensures CommaFree(piece) ==> CleanList(r)
    ensures |r| <= 1
  {
    var t := Trim(piece);
    assert CommaFree(piece) ==> CommaFree(t);
    if t == "" then [] else [t]
  }

  lemma CleanListAppend(a: seq<string>, b: seq<string>)
    requires CleanList(a) && CleanList(b)
    ensures CleanList(a + b)
  {
    forall k | 0 <= k < |a + b| ensures CleanEntry((a + b)[k]) {
      if k < |a| {
        assert (a + b)[k] == a[k];
      } else {
        assert (a + b)[k] == b[k - |a|];
      }
    }
  }

  /** `map(s => s.trim())`: each piece trimmed, in place. */
  function TrimAll(parts: seq<string>): (r: seq<string>)
    ensures |r| == |parts|
    ensures forall k :: 0 <= k < |parts| ==> r[k] == Trim(parts[k])
    decreases |parts|
  {
    if parts == [] then [] else [Trim(parts[0])] + TrimAll(parts[1..])
  }

  /** `filter(s => s !== "")`: the non-empty entries, in their order. */
  function NonEmpty(ts: seq<string>): (r: seq<string>)
    ensures |r| <= |ts|
    ensures forall x :: x in r <==> x in ts && x != ""
    decreases |ts|
  {
    if ts == [] then []
    else (if ts[0] != "" then [ts[0]] else []) + NonEmpty(ts[1..])
  }

  /** Filtering keeps the order: it works on a concatenation part by part. */
  lemma {:induction false} NonEmptyAppend(a: seq<string>, b: seq<string>)
    ensures NonEmpty(a + b) == NonEmpty(a) + NonEmpty(b)
    decreases |a|
  {
    if a == [] {
      EmptyAppend(b);
    } else {
      ConsAppend(a, b);
      NonEmptyAppend(a[1..], b);
      Assoc(if a[0] != "" then [a[0]] else [], NonEmpty(a[1..]), NonEmpty(b));
    }
  }

  /** The pieces, trimmed, with the empty ones dropped, in one pass
      (`CleanIsTrimFilter` shows it is `TrimAll` then `NonEmpty`); pieces
      without a comma give a clean list. */
  function Clean(parts: seq<string>): (r: seq<string>)
    ensures AllCommaFree(parts) ==> CleanList(r)
    decreases |parts|
  {
    if parts == [] then []
    else
      var head := CleanPiece(parts[0]);
      var rest := Clean(parts[1..]);
      assert AllCommaFree(parts) ==> CommaFree(parts[0]) && AllCommaFree(parts[1..]) by {
        if AllCommaFree(parts) {
          forall k | 0 <= k < |parts[1..]| ensures CommaFree(parts[1..][k]) {
            assert parts[1..][k] == parts[k + 1];
          }
        }
      }
      assert AllCommaFree(parts) ==> CleanList(head + rest) by {
        if AllCommaFree(parts) {
          CleanListAppend(head, rest);
        }
      }
      head + rest
  }

  /** `Clean` in one pass gives what trimming every piece and then keeping
      the non-empty ones gives. */
  lemma {:induction false} CleanIsTrimFilter(parts: seq<string>)
    ensures Clean(parts) == NonEmpty(TrimAll(parts))
    decreases |parts|
  {
    if parts != [] {
      CleanIsTrimFilter(parts[1..]);
      CleanStep(parts, Clean(parts[1..]));
    }
  }

  /** One step of `Clean` against trimming all and filtering. */
  lemma CleanStep(parts: seq<string>, rest: seq<string>)
    requires parts != [] && rest == NonEmpty(TrimAll(parts[1..]))
    ensures CleanPiece(parts[0]) + rest == NonEmpty(TrimAll(parts))
  {
    var t := Trim(parts[0]);
    var ts := TrimAll(parts[1..]);
    assert TrimAll(parts) == [t] + ts;
    DropCons(t, ts);
  }

  /** What the size and color inputs store: `split(",")`, then `trim` on
      every piece, then only the non-empty ones. The list never holds an
      empty, untrimmed or comma-bearing entry. */
  function ParseList(text: string): (list: seq<string>)
    ensures list == NonEmpty(TrimAll(Split(text)))
    ensures CleanList(list)
  {
    var parts := Split(text);
    assert AllCommaFree(parts);
    CleanIsTrimFilter(parts);
    Clean(parts)
  }

  /** Entering comma-free pieces separated by commas stores, in order, the
      trimmed pieces that are not blank. */
  lemma ParseJoin(parts: seq<string>)
    requires parts != [] && AllCommaFree(parts)
    ensures ParseList(Join(parts, ",")) == NonEmpty(TrimAll(parts))
  {
    JoinSplit(parts);
  }

  /** Text entered in two stretches around a comma is read as the two
      stretches read one after the other. */
  lemma ParseListAppend(a: string, b: string)
    ensures ParseList(a + "," + b) == ParseList(a) + ParseList(b)
  {
    SplitAppend(a, b);
    TrimAllAppend(Split(a), Split(b));
    NonEmptyAppend(TrimAll(Split(a)), TrimAll(Split(b)));
  }

  /** A comma splits the text into the pieces before it and the pieces
      after it. */
  lemma {:induction false} SplitAppend(a: string, b: string)
    ensures Split(a + "," + b) == Split(a) + Split(b)
    decreases |a|
  {
    if a == [] {
      EmptyAppend(",");
      assert a + "," + b == [','] + b;
      DropCons(',', b);
      assert Split(a) == [""];
    } else if a[0] == ',' {
      CommaTail(a, b);
      SplitAppend(a[1..], b);
      DropCons("", Split(a[1..]));
      assert [""] + (Split(a[1..]) + Split(b)) == ([""] + Split(a[1..])) + Split(b);
    } else {
      CommaTail(a, b);
      SplitAppend(a[1..], b);
      SplitConsTail(a[0], Split(a[1..]), Split(b));
    }
  }

  lemma SplitConsTail(c: char, x: seq<string>, y: seq<string>)
    requires x != []
    ensures [[c] + (x + y)[0]] + (x + y)[1..] == ([[c] + x[0]] + x[1..]) + y
  {
    assert (x + y)[0] == x[0];
    assert (x + y)[1..] == x[1..] + y;
  }

  /** Trimming works on a concatenation part by part. */
  lemma {:induction false} TrimAllAppend(a: seq<string>, b: seq<string>)
    ensures TrimAll(a + b) == TrimAll(a) + TrimAll(b)
    decreases |a|
  {
    if a == [] {
      EmptyAppend(b);
      EmptyAppend(TrimAll(b));
    } else {
      ConsAppend(a, b);
      TrimAllAppend(a[1..], b);
      Assoc([Trim(a[0])], TrimAll(a[1..]), TrimAll(b));
    }
  }

  /** What the size and color inputs display. */
  function ShowList(list: seq<string>): string {
    Join(list, ", ")
  }

  /** A trimmed, comma-free entry after an optional blank is read back
      alone. */
  lemma ReadEntry(p: string, x: string)
    requires p == "" || p == " "
    requires CleanEntry(x)
    ensures CommaFree(p + x)
    ensures Trim(p + x) == x
  {
    if p == " " {
      assert p + x == [' '] + x;
      DropCons(' ', x);
      CommaFreeCons(' ', x);
      assert TrimStart(p + x) == TrimStart(x);
    } else {
      EmptyAppend(x);
      assert p + x == x;
    }
  }

  lemma CommaFreeCons(c: char, x: string)
    requires c != ',' && CommaFree(x)
    ensures CommaFree([c] + x)
  {
    forall i | 0 <= i < |[c] + x| ensures ([c] + x)[i] != ',' {
      if i > 0 {
        assert ([c] + x)[i] == x[i - 1];
      }
    }
  }

  /** `Clean` works piece by piece. */
  lemma CleanCons(x: string, rest: seq<string>)
    ensures Clean([x] + rest) == CleanPiece(x) + Clean(rest)
  {
    assert ([x] + rest)[1..] == rest;
  }

  /** A clean entry after an optional blank survives cleaning alone. */
  lemma CleanPieceEntry(p: string, x: string)
    requires p == "" || p == " "
    requires CleanEntry(x)
    ensures CleanPiece(p + x) == [x]
  {
    ReadEntry(p, x);
  }

  lemma CleanListTail(list: seq<string>)
    requires CleanList(list) && list != []
    ensures CleanEntry(list[0]) && CleanList(list[1..])
  {
    forall k | 0 <= k < |list[1..]| ensures CleanEntry(list[1..][k]) {
      assert list[1..][k] == list[k + 1];
    }
  }

  /** A blank or empty text holds no entry. */
  lemma ParseBlank(p: string)
    requires p == "" || p == " "
    ensures Clean(Split(p)) == []
  {
    BlankPiece(p);
    assert CommaFree(p);
    CleanSingle(p);
  }

  lemma BlankPiece(p: string)
    requires p == "" || p == " "
    ensures CleanPiece(p) == []
  {
    if p == " " {
      assert p[1..] == "";
      assert TrimStart(p) == TrimStart("");
    }
  }

  /** A single piece is cleaned alone. */
  lemma CleanSingle(x: string)
    ensures Clean([x]) == CleanPiece(x)
  {
    assert [x][1..] == [];
    assert CleanPiece(x) + [] == CleanPiece(x);
  }

  /** A single clean entry after an optional blank is read back alone. */
  lemma ParseSingle(p: string, x: string)
    requires p == "" || p == " "
    requires CleanEntry(x)
    ensures Clean(Split(p + x)) == [x]
  {
    ReadEntry(p, x);
    CleanPieceEntry(p, x);
    CleanSingle(p + x);
  }

  /** The display of a list of two or more splits at its first comma. */
  lemma SplitShown(p: string, list: seq<string>)
    requires p == "" || p == " "
    requires |list| >= 2 && CleanEntry(list[0])
    ensures Split(p + Join(list, ", ")) == [p + list[0]] + Split(" " + Join(list[1..], ", "))
  {
    var x, j := list[0], Join(list[1..], ", ");
    ReadEntry(p, x);
    CommaShape(p, x, j);
    SplitAtComma(p + x, " " + j);
  }

  /** One more clean entry in front of a list that reads back. */
  lemma ParseCons(p: string, list: seq<string>)
    requires p == "" || p == " "
    requires |list| >= 2 && CleanEntry(list[0])
    requires Clean(Split(" " + Join(list[1..], ", "))) == list[1..]
    ensures Clean(Split(p + Join(list, ", "))) == list
  {
    SplitShown(p, list);
    CleanFront(p, list[0], Split(" " + Join(list[1..], ", ")));
    HeadTail(list);
  }

  /** A clean entry after an optional blank leads the cleaned pieces. */
  lemma CleanFront(p: string, x: string, rest: seq<string>)
    requires p == "" || p == " "
    requires CleanEntry(x)
    ensures Clean([p + x] + rest) == [x] + Clean(rest)
  {
    CleanCons(p + x, rest);
    CleanPieceEntry(p, x);
  }

  lemma CommaShape(p: string, x: string, j: string)
    ensures p + (x + ", " + j) == (p + x) + "," + (" " + j)
  {
  }

  /** An optional blank followed by the display of a clean list is read
      back as that list. */
  lemma {:induction false} ParseShownAfter(p: string, list: seq<string>)
    requires p == "" || p == " "
    requires CleanList(list)
    ensures Clean(Split(p + Join(list, ", "))) == list
    decreases |list|
  {
    if list == [] {
      assert p + Join(list, ", ") == p;
      ParseBlank(p);
    } else if |list| == 1 {
      ParseSingle(p, list[0]);
      Singleton(list);
    } else {
      CleanListTail(list);
      ParseShownAfter(" ", list[1..]);
      ParseCons(p, list);
    }
  }

  /** Reading back what the input displays gives the list again when the
      entries are non-empty, trimmed and comma-free. */
  lemma ParseShowRoundTrip(list: seq<string>)
    requires CleanList(list)
    ensures ParseList(ShowList(list)) == list
  {
    ParseShownAfter("", list);
    assert "" + Join(list, ", ") == Join(list, ", ");
  }

  /** Displaying a parsed list and reading it back changes nothing. */
  lemma ParseShowParse(text: string)
    ensures ParseList(ShowList(ParseList(text))) == ParseList(text)
  {
    ParseShowRoundTrip(ParseList(text));
  }

  datatype Image = Image(url: string, altText: string)

  function ImageKey(i: Image): string {
    i.url
  }

  /** The editor's form: the text fields by input name, the size and color
      lists, and the images. */
  datatype ProductForm = ProductForm(fields: map<string, string>, sizes: seq<string>, colors: seq<string>, images: seq<Image>)

  /** `handleChange`: the named field takes the input's value; nothing
      else changes. */
  function HandleChange(form: ProductForm, name: string, value: string): (r: ProductForm)
    ensures name in r.fields && r.fields[name] == value
    ensures forall k :: k in form.fields && k != name ==> k in r.fields && r.fields[k] == form.fields[k]
    ensures forall k :: k in r.fields ==> k == name || k in form.fields
    ensures r.sizes == form.sizes && r.colors == form.colors && r.images == form.images
  {
    form.(fields := form.fields[name := value])
  }

  /** A change in the sizes input stores the parsed list. */
  function SetSizes(form: ProductForm, text: string): (r: ProductForm)
    ensures r.sizes == ParseList(text) && CleanList(r.sizes)
    ensures r.fields == form.fields && r.colors == form.colors && r.images == form.images
  {
    form.(sizes := ParseList(text))
  }

  /** A change in the colors input stores the parsed list. */
  function SetColors(form: ProductForm, text: string): (r: ProductForm)
    ensures r.colors == ParseList(text) && CleanList(r.colors)
    ensures r.fields == form.fields && r.sizes == form.sizes && r.images == form.images
  {
    form.(colors := ParseList(text))
  }

  /** Re-entering the displayed sizes and colors leaves a clean form as it
      was. */
  lemma RedisplayKeepsForm(form: ProductForm)
    requires CleanList(form.sizes) && CleanList(form.colors)
    ensures SetSizes(form, ShowList(form.sizes)) == form
    ensures SetColors(form, ShowList(form.colors)) == form
  {
    ParseShowRoundTrip(form.sizes);
    ParseShowRoundTrip(form.colors);
  }

  /** An upload appends one image with the returned url and no alt text. */
  function ImageUploaded(form: ProductForm, url: string): (r: ProductForm)
    ensures |r.images| == |form.images| + 1
    ensures r.images[..|form.images|] == form.images
    ensures r.images[|form.images|] == Image(url, "")
    ensures r.fields == form.fields && r.sizes == form.sizes && r.colors == form.colors
  {
    form.(images := form.images + [Image(url, "")])
  }

  /** Removing an image drops every image with that url and keeps the
      others in order. */
  function ImageRemoved(form: ProductForm, url: string): (r: ProductForm)
    ensures r.images == RemoveById(form.images, ImageKey, url)
    ensures forall i :: i in r.images ==> i.url != url && i in form.images
    ensures forall i :: i in form.images && i.url != url ==> i in r.images
    ensures r.fields == form.fields && r.sizes == form.sizes && r.colors == form.colors
  {
    form.(images := RemoveById(form.images, ImageKey, url))
  }

  /** Removing a url just uploaded undoes the upload, and also drops any
      earlier image with that url. */
  lemma RemoveAfterUpload(form: ProductForm, url: string)
    ensures ImageRemoved(ImageUploaded(form, url), url) == ImageRemoved(form, url)
  {
    RemoveByIdAppend(form.images, [Image(url, "")], ImageKey, url);
    assert RemoveById([Image(url, "")], ImageKey, url) == [];
  }
}
