/** The create-recipe page (client/src/pages/Create.jsx): the form state, the
    category picker's options, and the multipart body the submit handler builds. */
module CreatePage {
  import opened Common
  import opened FormData

  const ImageKey := "image"
  const CategoryKey := "category_id"

  /** The form's initial (and post-submit) state, in the order its keys are declared. */
  function InitialForm(): Entries {
    [("title", Text("")), ("content", Text("")), ("ingredients", Text("")),
     ("estimated_time", Text("")), ("servings", Text("")), ("difficulty", Text("")),
     ("instructions", Text("")), ("notes", Text("")), (ImageKey, Null),
     ("video_url", Text("")), (CategoryKey, Text(""))]
  }

  /** `value || ""`. */
  function OrEmpty(v: Value): (r: Value)
    ensures Truthy(v) ==> r == v
    ensures !Truthy(v) ==> r == Text("")
  {
    if Truthy(v) then v else Text("")
  }

  /** What one form entry contributes to the body: the image only when it is a
      file, every other key with its value or "". */
  function Part(e: (string, Value)): Entries {
    if e.0 == ImageKey then (if e.1.FileValue? then [e] else [])
    else [(e.0, OrEmpty(e.1))]
  }

  /** The body for a whole form, entry by entry in the form's key order. */
  function BodyOf(es: Entries): Entries {
    if es == [] then [] else Part(es[0]) + BodyOf(es[1..])
  }

  lemma {:induction false} BodyOfSnoc(es: Entries, e: (string, Value))
    ensures BodyOf(es + [e]) == BodyOf(es) + Part(e)
  {
    if es == [] {
      assert [e][1..] == [];
    } else {
      assert (es + [e])[1..] == es[1..] + [e];
      BodyOfSnoc(es[1..], e);
    }
  }

  /** Every key other than image reaches the body with the form's value, or ""
      when that value is falsy; a key the form lacks does not appear. */
  lemma {:induction false} BodyFields(es: Entries, k: string)
    requires k != ImageKey
    ensures Get(BodyOf(es), k) == if k in Keys(es) then OrEmpty(Get(es, k)) else Undefined
  {
    if es != [] {
      BodyFields(es[1..], k);
      assert Keys(es) == [es[0].0] + Keys(es[1..]);
      var rest := BodyOf(es[1..]);
      assert BodyOf(es) == Part(es[0]) + rest;
      if es[0].0 == k {
        assert BodyOf(es)[0] == (k, OrEmpty(es[0].1));
      } else if Part(es[0]) == [] {
        assert BodyOf(es) == rest;
      } else {
        assert BodyOf(es)[0].0 != k && BodyOf(es)[1..] == rest;
      }
    }
  }

  /** The body has an image part exactly when the form holds a file under image,
      and that part is the form's (first) image value. */
  lemma {:induction false} BodyImage(es: Entries)
    ensures ImageKey in Keys(BodyOf(es))
      <==> exists i :: 0 <= i < |es| && es[i].0 == ImageKey && es[i].1.FileValue?
    ensures Get(es, ImageKey).FileValue? ==> Get(BodyOf(es), ImageKey) == Get(es, ImageKey)
  {
    if es != [] {
      BodyImage(es[1..]);
      var rest := BodyOf(es[1..]);
      assert BodyOf(es) == Part(es[0]) + rest;
      if es[0].0 == ImageKey && es[0].1.FileValue? {
        assert Keys(BodyOf(es)) == [ImageKey] + Keys(rest);
      } else {
        if es[0].0 != ImageKey {
          assert Keys(BodyOf(es)) == [es[0].0] + Keys(rest);
        } else {
          assert BodyOf(es) == rest;
        }
        if exists i :: 0 <= i < |es| && es[i].0 == ImageKey && es[i].1.FileValue? {
          var i :| 0 <= i < |es| && es[i].0 == ImageKey && es[i].1.FileValue?;
          assert es[1..][i - 1] == es[i];
        }
        if exists i :: 0 <= i < |es| - 1 && es[1..][i].0 == ImageKey && es[1..][i].1.FileValue? {
          var i :| 0 <= i < |es| - 1 && es[1..][i].0 == ImageKey && es[1..][i].1.FileValue?;
          assert es[i + 1] == es[1..][i];
        }
      }
    }
  }

  /** The `forEach` over `Object.entries(formData)` that fills the FormData body. */
  method BuildBody(form: Entries) returns (data: Entries)
    ensures data == BodyOf(form)
  {
    data := [];
    for i := 0 to |form|
      invariant data == BodyOf(form[..i])
    {
      assert form[..i + 1] == form[..i] + [form[i]];
      BodyOfSnoc(form[..i], form[i]);
      var (key, value) := form[i];
      if key == ImageKey && value.FileValue? {
        data := data + [(ImageKey, value)];
      } else if key != ImageKey {
        data := data + [(key, OrEmpty(value))];
      }
    }
    assert form[..|form|] == form;
  }

  /** A category from the server and the picker option made from it. */
  datatype Category = Category(id: int, name: string)
  datatype CategoryOption = CategoryOption(value: int, labelText: string, id: int)

  /** `{value: category.id, label: category.name, id: category.id}`. */
  function OptionOf(c: Category): (o: CategoryOption)
    ensures o.value == c.id && o.id == c.id && o.labelText == c.name
  {
    CategoryOption(c.id, c.name, c.id)
  }

  /** The options for the fetched categories, one per category, in order. */
  function Options(cs: seq<Category>): (os: seq<CategoryOption>)
    ensures |os| == |cs|
    ensures forall i :: 0 <= i < |cs| ==> os[i] == OptionOf(cs[i])
  {
    if cs == [] then [] else [OptionOf(cs[0])] + Options(cs[1..])
  }

  class CreatePageState {
    var categories: seq<CategoryOption>
    var selectedCategory: Option<CategoryOption>
    var isLoadingCategories: bool
    var form: Entries
    var preview: Option<string>

    constructor()
      ensures categories == [] && selectedCategory == None && isLoadingCategories
      ensures form == InitialForm() && preview == None
    {
      categories, selectedCategory, isLoadingCategories := [], None, true;
      form, preview := InitialForm(), None;
    }

    /** fetchCategories: a fetched list replaces the options; a failed request
        keeps them; loading ends either way. */
    method CategoriesFetched(response: Option<seq<Category>>)
      modifies this
      ensures response.Some? ==> categories == Options(response.value)
      ensures response.None? ==> categories == old(categories)
      ensures !isLoadingCategories
      ensures selectedCategory == old(selectedCategory) && form == old(form) && preview == old(preview)
    {
      if response.Some? {
        categories := Options(response.value);
      }
      isLoadingCategories := false;
    }

    /** handleCreateCategory, with the server's reply as an argument: the created
        category's option is appended, selected, and its id becomes category_id;
        on failure nothing but the loading flag changes. */
    method CreateCategory(response: Option<Category>)
      modifies this
      ensures response.Some? ==>
        categories == old(categories) + [OptionOf(response.value)]
        && selectedCategory == Some(OptionOf(response.value))
        && form == Set(old(form), CategoryKey, Number(response.value.id))
      ensures response.None? ==>
        categories == old(categories) && selectedCategory == old(selectedCategory) && form == old(form)
      ensures !isLoadingCategories && preview == old(preview)
    {
      isLoadingCategories := true;
      if response.Some? {
        var created := OptionOf(response.value);
        categories := categories + [created];
        selectedCategory := Some(created);
        form := Set(form, CategoryKey, Number(created.value));
      }
      isLoadingCategories := false;
    }

    /** handleCategoryChange: the selection is stored and category_id becomes its
        value, or "" when the picker is cleared. */
    method CategoryChange(selected: Option<CategoryOption>)
      modifies this
      ensures selectedCategory == selected
      ensures form == Set(old(form), CategoryKey, if selected.Some? then Number(selected.value.value) else Text(""))
      ensures categories == old(categories) && preview == old(preview)
      ensures isLoadingCategories == old(isLoadingCategories)
    {
      selectedCategory := selected;
      form := Set(form, CategoryKey, if selected.Some? then Number(selected.value.value) else Text(""));
    }

    /** handleChange: the image input with at least one file stores the first file
        and its object URL as the preview; any other change stores the input's
        text under its name. `files` is empty for inputs without files;
        `objectUrl` stands for `URL.createObjectURL(files[0])`. */
    method Change(name: string, value: string, files: seq<File>, objectUrl: string)
      modifies this
      ensures name == ImageKey && |files| > 0 ==>
        form == Set(old(form), ImageKey, FileValue(files[0])) && preview == Some(objectUrl)
      ensures !(name == ImageKey && |files| > 0) ==>
        form == Set(old(form), name, Text(value)) && preview == old(preview)
      ensures categories == old(categories) && selectedCategory == old(selectedCategory)
      ensures isLoadingCategories == old(isLoadingCategories)
    {
      if name == ImageKey && |files| > 0 {
        form := Set(form, ImageKey, FileValue(files[0]));
        preview := Some(objectUrl);
      } else {
        form := Set(form, name, Text(value));
      }
    }

    /** The post-submit reset of the form, the selection and the preview. */
    method ResetForm()
      modifies this
      ensures form == InitialForm() && selectedCategory == None && preview == None
      ensures categories == old(categories) && isLoadingCategories == old(isLoadingCategories)
    {
      form := InitialForm();
      selectedCategory := None;
      preview := None;
    }

    /** handleSubmit: the body sent is built from the form; after a successful
        request the form, the selection and the preview are reset, after a failed
        one nothing changes. */
    method Submit(succeeded: bool) returns (body: Entries)
      modifies this
      ensures body == BodyOf(old(form))
      ensures succeeded ==> form == InitialForm() && selectedCategory == None && preview == None
      ensures !succeeded ==>
        form == old(form) && selectedCategory == old(selectedCategory) && preview == old(preview)
      ensures categories == old(categories) && isLoadingCategories == old(isLoadingCategories)
    {
      body := BuildBody(form);
      if succeeded {
        ResetForm();
      }
    }
  }
}
