/**
 * The editing operations on the product record. Each handler is a pure
 * update of the record (a function with its frame condition: the one
 * field it names changes, nothing else does); `ProductEditor` holds the
 * current record and applies one update per handler, keeping the
 * invariant that the feature and testimonial lists are never empty.
 */
module Editor {
  import opened Text
  import opened Product

  // ---------------------------------------------------------------------
  // Fields of the record and the frame condition
  // ---------------------------------------------------------------------

  datatype Field =
    | NameField | DescriptionField | PriceField | ImagesField | CategoryField | FeaturesField
    | CallToActionField | TestimonialsField | PrimaryColorField | SecondaryColorField
    | FontFamilyField | LayoutField

  datatype FieldValue =
    | Str(text: string)
    | Texts(texts: seq<string>)
    | Quotes(quotes: seq<Testimonial>)
    | Arrangement(layout: Layout)

  /** The value a record holds in one field. */
  function Get(p: ProductData, f: Field): FieldValue
  {
    match f
    case NameField => Str(p.name)
    case DescriptionField => Str(p.description)
    case PriceField => Str(p.price)
    case ImagesField => Texts(p.images)
    case CategoryField => Str(p.category)
    case FeaturesField => Texts(p.features)
    case CallToActionField => Str(p.callToAction)
    case TestimonialsField => Quotes(p.testimonials)
    case PrimaryColorField => Str(p.primaryColor)
    case SecondaryColorField => Str(p.secondaryColor)
    case FontFamilyField => Str(p.fontFamily)
    case LayoutField => Arrangement(p.layout)
  }

  /** `q` agrees with `p` on every field except possibly `changed`. */
  predicate SameExcept(p: ProductData, q: ProductData, changed: Field)
  {
    forall f: Field :: f != changed ==> Get(p, f) == Get(q, f)
  }

  /** The fields make up the whole record: two records agreeing on all of them are equal. */
  lemma FieldsDetermineRecord(p: ProductData, q: ProductData)
    requires forall f: Field :: Get(p, f) == Get(q, f)
    ensures p == q
  {
    assert Get(p, NameField) == Get(q, NameField);
    assert Get(p, DescriptionField) == Get(q, DescriptionField);
    assert Get(p, PriceField) == Get(q, PriceField);
    assert Get(p, ImagesField) == Get(q, ImagesField);
    assert Get(p, CategoryField) == Get(q, CategoryField);
    assert Get(p, FeaturesField) == Get(q, FeaturesField);
    assert Get(p, CallToActionField) == Get(q, CallToActionField);
    assert Get(p, TestimonialsField) == Get(q, TestimonialsField);
    assert Get(p, PrimaryColorField) == Get(q, PrimaryColorField);
    assert Get(p, SecondaryColorField) == Get(q, SecondaryColorField);
    assert Get(p, FontFamilyField) == Get(q, FontFamilyField);
    assert Get(p, LayoutField) == Get(q, LayoutField);
  }

  /** The editing invariant: there is always a feature row and a testimonial row. */
  predicate Invariant(p: ProductData)
  {
    |p.features| > 0 && |p.testimonials| > 0
  }

  /** An update that leaves both lists alone keeps the invariant. */
  lemma SameExceptKeepsInvariant(p: ProductData, q: ProductData, changed: Field)
    requires SameExcept(p, q, changed) && changed != FeaturesField && changed != TestimonialsField
    ensures Invariant(p) <==> Invariant(q)
  {
    assert Get(p, FeaturesField) == Get(q, FeaturesField);
    assert Get(p, TestimonialsField) == Get(q, TestimonialsField);
  }

  const BlankTestimonial: Testimonial := Testimonial("", "")

  /** The record the editor starts with. */
  function InitialProductData(): (p: ProductData)
    ensures Invariant(p)
    ensures p.features == [""] && p.testimonials == [BlankTestimonial] && p.images == []
    ensures p.name == "" && p.description == "" && p.price == "" && p.category == ""
    ensures p.callToAction == "Buy Now" && p.layout == Centered
    ensures p.primaryColor == "#000000" && p.secondaryColor == "#ffffff" && p.fontFamily == "Inter"
  {
    ProductData(
      name := "", description := "", price := "", images := [], category := "",
      features := [""], callToAction := "Buy Now", testimonials := [BlankTestimonial],
      primaryColor := "#000000", secondaryColor := "#ffffff", fontFamily := "Inter",
      layout := Centered)
  }

  // ---------------------------------------------------------------------
  // List helpers
  // ---------------------------------------------------------------------

  /** `s.filter((_, i) => i !== index)`: every element whose position is not `index`. */
  function DropIndex<T>(s: seq<T>, index: nat): (r: seq<T>)
    ensures index < |s| ==> r == s[..index] + s[index + 1..]
    ensures index >= |s| ==> r == s
  {
    if s == [] then []
    else if index == 0 then s[1..]
    else [s[0]] + DropIndex(s[1..], index - 1)
  }

  // ---------------------------------------------------------------------
  // Scalar setters
  // ---------------------------------------------------------------------

  /** The inputs wired to `handleChange` by their `name` attribute. */
  datatype TextInput = NameInput | DescriptionInput | PriceInput | CallToActionInput

  function FieldOf(input: TextInput): Field
  {
    match input
    case NameInput => NameField
    case DescriptionInput => DescriptionField
    case PriceInput => PriceField
    case CallToActionInput => CallToActionField
  }

  /** `handleChange`: the named text field takes the typed value. */
  function SetText(p: ProductData, input: TextInput, value: string): (r: ProductData)
    ensures Get(r, FieldOf(input)) == Str(value)
    ensures SameExcept(p, r, FieldOf(input))
  {
    match input
    case NameInput => p.(name := value)
    case DescriptionInput => p.(description := value)
    case PriceInput => p.(price := value)
    case CallToActionInput => p.(callToAction := value)
  }

  /** The category selector's inline handler. */
  function SetCategory(p: ProductData, value: string): (r: ProductData)
    ensures Get(r, CategoryField) == Str(value)
    ensures SameExcept(p, r, CategoryField)
  {
    p.(category := value)
  }

  datatype ColorSlot = Primary | Secondary

  /** `handleColorChange`: one of the two brand colours takes the picked value. */
  function SetColor(p: ProductData, slot: ColorSlot, color: string): (r: ProductData)
    ensures slot == Primary ==> Get(r, PrimaryColorField) == Str(color) && SameExcept(p, r, PrimaryColorField)
    ensures slot == Secondary ==> Get(r, SecondaryColorField) == Str(color) && SameExcept(p, r, SecondaryColorField)
  {
    match slot
    case Primary => p.(primaryColor := color)
    case Secondary => p.(secondaryColor := color)
  }

  /** `handleLayoutChange`. */
  function SetLayout(p: ProductData, layout: Layout): (r: ProductData)
    ensures Get(r, LayoutField) == Arrangement(layout)
    ensures SameExcept(p, r, LayoutField)
  {
    p.(layout := layout)
  }

  /** `handleFontChange`: the family is stored as chosen, allow-listed or not. */
  function SetFont(p: ProductData, font: string): (r: ProductData)
    ensures Get(r, FontFamilyField) == Str(font)
    ensures SameExcept(p, r, FontFamilyField)
  {
    p.(fontFamily := font)
  }

  // ---------------------------------------------------------------------
  // Features
  // ---------------------------------------------------------------------

  /** `handleFeatureChange`: one row takes a new text; the others and the length stay. */
  function SetFeature(p: ProductData, index: nat, value: string): (r: ProductData)
    requires index < |p.features|
    ensures SameExcept(p, r, FeaturesField)
    ensures |r.features| == |p.features| && r.features[index] == value
    ensures forall j :: 0 <= j < |p.features| && j != index ==> r.features[j] == p.features[j]
  {
    p.(features := p.features[index := value])
  }

  /** `addFeature`: a blank row at the end, the earlier rows untouched. */
  function FeatureAdded(p: ProductData): (r: ProductData)
    ensures SameExcept(p, r, FeaturesField)
    ensures |r.features| == |p.features| + 1
    ensures r.features[..|p.features|] == p.features && r.features[|p.features|] == ""
  {
    p.(features := p.features + [""])
  }

  /** `removeFeature`: drops row `index`; a list left empty becomes one blank row. */
  function FeatureRemoved(p: ProductData, index: nat): (r: ProductData)
    ensures SameExcept(p, r, FeaturesField)
    ensures |r.features| > 0
    ensures index < |p.features| && |p.features| > 1 ==>
              r.features == p.features[..index] + p.features[index + 1..]
    ensures index < |p.features| && |p.features| == 1 ==> r.features == [""]
    ensures index >= |p.features| ==> r.features == if p.features == [] then [""] else p.features
  {
    var kept := DropIndex(p.features, index);
    p.(features := if |kept| > 0 then kept else [""])
  }

  // ---------------------------------------------------------------------
  // Testimonials
  // ---------------------------------------------------------------------

  datatype TestimonialPart = AuthorPart | ContentPart

  /** `handleTestimonialChange`: one part of one entry changes, everything else stays. */
  function SetTestimonial(p: ProductData, index: nat, part: TestimonialPart, value: string): (r: ProductData)
    requires index < |p.testimonials|
    ensures SameExcept(p, r, TestimonialsField)
    ensures |r.testimonials| == |p.testimonials|
    ensures forall j :: 0 <= j < |p.testimonials| && j != index ==> r.testimonials[j] == p.testimonials[j]
    ensures var old_, new_ := p.testimonials[index], r.testimonials[index];
            if part == AuthorPart then new_.author == value && new_.content == old_.content
            else new_.content == value && new_.author == old_.author
  {
    var t := p.testimonials[index];
    var t' := match part
              case AuthorPart => t.(author := value)
              case ContentPart => t.(content := value);
    p.(testimonials := p.testimonials[index := t'])
  }

  /** `addTestimonial`: a blank entry at the end, the earlier entries untouched. */
  function TestimonialAdded(p: ProductData): (r: ProductData)
    ensures SameExcept(p, r, TestimonialsField)
    ensures |r.testimonials| == |p.testimonials| + 1
    ensures r.testimonials[..|p.testimonials|] == p.testimonials
    ensures r.testimonials[|p.testimonials|] == BlankTestimonial
  {
    p.(testimonials := p.testimonials + [BlankTestimonial])
  }

  /** `removeTestimonial`: drops entry `index`; a list left empty becomes one blank entry. */
  function TestimonialRemoved(p: ProductData, index: nat): (r: ProductData)
    ensures SameExcept(p, r, TestimonialsField)
    ensures |r.testimonials| > 0
    ensures index < |p.testimonials| && |p.testimonials| > 1 ==>
              r.testimonials == p.testimonials[..index] + p.testimonials[index + 1..]
    ensures index < |p.testimonials| && |p.testimonials| == 1 ==> r.testimonials == [BlankTestimonial]
    ensures index >= |p.testimonials| ==>
              r.testimonials == if p.testimonials == [] then [BlankTestimonial] else p.testimonials
  {
    var kept := DropIndex(p.testimonials, index);
    p.(testimonials := if |kept| > 0 then kept else [BlankTestimonial])
  }

  // ---------------------------------------------------------------------
  // Images
  // ---------------------------------------------------------------------

  /** `removeImage`: drops image `index`; unlike the other lists this one may become empty. */
  function ImageRemoved(p: ProductData, index: nat): (r: ProductData)
    ensures SameExcept(p, r, ImagesField)
    ensures index < |p.images| ==> r.images == p.images[..index] + p.images[index + 1..]
    ensures index >= |p.images| ==> r.images == p.images
  {
    p.(images := DropIndex(p.images, index))
  }

  /** A dropped or selected file: its MIME type and the data URL its reader yields. */
  datatype ImageFile = ImageFile(mimeType: string, dataUrl: string)

  /**
   * `file.type.match('image.*')`: the pattern is an unanchored regular
   * expression whose `.*` may match nothing, so it holds exactly when
   * `image` occurs somewhere in the type.
   */
  function MatchesImageType(mimeType: string): (matched: bool)
    ensures matched ==> |mimeType| >= 5
    ensures |mimeType| >= 5 && mimeType[..5] == "image" ==> matched
  {
    if |mimeType| < 5 then false
    else mimeType[..5] == "image" || MatchesImageType(mimeType[1..])
  }

  lemma {:induction false} MatchesImageTypeMeaning(mimeType: string)
    ensures MatchesImageType(mimeType) <==> exists i :: OccursAt(mimeType, "image", i)
  {
    if |mimeType| < 5 {
      assert forall i :: !OccursAt(mimeType, "image", i);
    } else if mimeType[..5] == "image" {
      assert OccursAt(mimeType, "image", 0);
    } else {
      var rest := mimeType[1..];
      MatchesImageTypeMeaning(rest);
      forall i | OccursAt(rest, "image", i)
        ensures OccursAt(mimeType, "image", i + 1)
      {
        assert rest[i..i + 5] == mimeType[i + 1..i + 6];
      }
      forall i | OccursAt(mimeType, "image", i)
        ensures i > 0 && OccursAt(rest, "image", i - 1)
      {
        assert rest[i - 1..i + 4] == mimeType[i..i + 5];
      }
    }
  }

  /** Whether a file's contents are appended: an image type and a non-empty reader result. */
  predicate Accepted(file: ImageFile)
  {
    MatchesImageType(file.mimeType) && file.dataUrl != ""
  }

  /** The data URLs appended for `files`, in file order. */
  function AcceptedImages(files: seq<ImageFile>): seq<string>
  {
    if files == [] then []
    else
      var last := files[|files| - 1];
      AcceptedImages(files[..|files| - 1]) + if Accepted(last) then [last.dataUrl] else []
  }

  /** Every appended image is the data URL of an accepted file. */
  lemma {:induction false} AcceptedImagesProvenance(files: seq<ImageFile>)
    ensures forall u :: u in AcceptedImages(files) ==> exists f :: f in files && Accepted(f) && f.dataUrl == u
  {
    if files != [] {
      var earlier := files[..|files| - 1];
      AcceptedImagesProvenance(earlier);
      assert forall f :: f in earlier ==> f in files;
    }
  }

  lemma {:induction false} AcceptedImagesAppend(a: seq<ImageFile>, b: seq<ImageFile>)
    ensures AcceptedImages(a + b) == AcceptedImages(a) + AcceptedImages(b)
    decreases |b|
  {
    if b == [] {
      assert a + b == a;
    } else {
      var b' := b[..|b| - 1];
      assert (a + b)[..|a + b| - 1] == a + b';
      assert (a + b)[|a + b| - 1] == b[|b| - 1];
      AcceptedImagesAppend(a, b');
    }
  }

  lemma AcceptedImagesSingle(file: ImageFile)
    ensures AcceptedImages([file]) == if Accepted(file) then [file.dataUrl] else []
  {
    assert [file][..0] == [];
  }

  /** An accepted file's data URL is appended in its place among the others. */
  lemma AcceptedFileAppended(before: seq<ImageFile>, file: ImageFile, after: seq<ImageFile>)
    requires Accepted(file)
    ensures AcceptedImages(before + [file] + after) == AcceptedImages(before) + [file.dataUrl] + AcceptedImages(after)
  {
    AcceptedImagesSingle(file);
    AcceptedImagesAppend(before + [file], after);
    AcceptedImagesAppend(before, [file]);
  }

  /** A file that is not accepted leaves no trace in the image list. */
  lemma UnacceptedFileIgnored(before: seq<ImageFile>, file: ImageFile, after: seq<ImageFile>)
    requires !Accepted(file)
    ensures AcceptedImages(before + [file] + after) == AcceptedImages(before + after)
  {
    AcceptedImagesSingle(file);
    AcceptedImagesAppend(before + [file], after);
    AcceptedImagesAppend(before, [file]);
    AcceptedImagesAppend(before, after);
  }

  /** A file whose type does not match `image.*` is never appended. */
  lemma RejectedFileIgnored(files: seq<ImageFile>, k: nat)
    requires k < |files| && !MatchesImageType(files[k].mimeType)
    ensures AcceptedImages(files) == AcceptedImages(files[..k] + files[k + 1..])
  {
    SplitAt(files, k);
    UnacceptedFileIgnored(files[..k], files[k], files[k + 1..]);
  }

  /**
   * `handleImageUpload`'s loop: starting from a copy of the current
   * images, each accepted file's data URL is pushed in turn.
   */
  method CollectUploads(current: seq<string>, files: seq<ImageFile>) returns (newImages: seq<string>)
    ensures newImages == current + AcceptedImages(files)
  {
    newImages := current;
    var k := 0;
    while k < |files|
      invariant 0 <= k <= |files|
      invariant newImages == current + AcceptedImages(files[..k])
    {
      var file := files[k];
      assert files[..k + 1][..k] == files[..k];
      if MatchesImageType(file.mimeType) {
        if file.dataUrl != "" {
          newImages := newImages + [file.dataUrl];
        }
      }
      k := k + 1;
    }
    assert files[..k] == files;
  }

  // ---------------------------------------------------------------------
  // The editor's state
  // ---------------------------------------------------------------------

  /** The editor component: the record it holds and one method per handler. */
  class ProductEditor {
    var product: ProductData

    ghost predicate Valid()
      reads this
    {
      Invariant(product)
    }

    constructor ()
      ensures Valid() && product == InitialProductData()
    {
      product := InitialProductData();
    }

    method HandleChange(input: TextInput, value: string)
      requires Valid()
      modifies this
      ensures Valid() && product == SetText(old(product), input, value)
    {
      var next := SetText(product, input, value);
      SameExceptKeepsInvariant(product, next, FieldOf(input));
      product := next;
    }

    method HandleCategoryChange(value: string)
      requires Valid()
      modifies this
      ensures Valid() && product == SetCategory(old(product), value)
    {
      product := SetCategory(product, value);
    }

    /** Copies the rows into a fresh array, assigns one slot, stores the copy. */
    method HandleFeatureChange(index: nat, value: string)
      requires Valid() && index < |product.features|
      modifies this
      ensures Valid() && product == SetFeature(old(product), index, value)
    {
      var features := product.features;
      var copy := new string[|features|](k requires 0 <= k < |features| => features[k]);
      copy[index] := value;
      assert copy[..] == features[index := value];
      product := product.(features := copy[..]);
    }

    method AddFeature()
      requires Valid()
      modifies this
      ensures Valid() && product == FeatureAdded(old(product))
    {
      product := FeatureAdded(product);
    }

    method RemoveFeature(index: nat)
      requires Valid()
      modifies this
      ensures Valid() && product == FeatureRemoved(old(product), index)
    {
      product := FeatureRemoved(product, index);
    }

    /** Copies the entries into a fresh array, rewrites one part of one slot, stores the copy. */
    method HandleTestimonialChange(index: nat, part: TestimonialPart, value: string)
      requires Valid() && index < |product.testimonials|
      modifies this
      ensures Valid() && product == SetTestimonial(old(product), index, part, value)
    {
      var entries := product.testimonials;
      var copy := new Testimonial[|entries|](k requires 0 <= k < |entries| => entries[k]);
      match part {
        case AuthorPart => copy[index] := copy[index].(author := value);
        case ContentPart => copy[index] := copy[index].(content := value);
      }
      assert copy[..] == SetTestimonial(product, index, part, value).testimonials;
      product := product.(testimonials := copy[..]);
    }

    method AddTestimonial()
      requires Valid()
      modifies this
      ensures Valid() && product == TestimonialAdded(old(product))
    {
      product := TestimonialAdded(product);
    }

    method RemoveTestimonial(index: nat)
      requires Valid()
      modifies this
      ensures Valid() && product == TestimonialRemoved(old(product), index)
    {
      product := TestimonialRemoved(product, index);
    }

    method HandleColorChange(slot: ColorSlot, color: string)
      requires Valid()
      modifies this
      ensures Valid() && product == SetColor(old(product), slot, color)
    {
      product := SetColor(product, slot, color);
    }

    method HandleLayoutChange(layout: Layout)
      requires Valid()
      modifies this
      ensures Valid() && product == SetLayout(old(product), layout)
    {
      product := SetLayout(product, layout);
    }

    method HandleFontChange(font: string)
      requires Valid()
      modifies this
      ensures Valid() && product == SetFont(old(product), font)
    {
      product := SetFont(product, font);
    }

    /** Appends the accepted files' data URLs; no other field changes. */
    method HandleImageUpload(files: seq<ImageFile>)
      requires Valid()
      modifies this
      ensures Valid()
      ensures product == old(product).(images := old(product).images + AcceptedImages(files))
    {
      var newImages := CollectUploads(product.images, files);
      product := product.(images := newImages);
    }

    method RemoveImage(index: nat)
      requires Valid()
      modifies this
      ensures Valid() && product == ImageRemoved(old(product), index)
    {
      product := ImageRemoved(product, index);
    }
  }
}
