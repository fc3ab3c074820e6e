/** The registration page (client/src/pages/Register2.jsx): its form state and the
    multipart body its submit handler builds for the register endpoint. */
module RegisterPage {
  import opened Common
  import opened FormData

  const PictureKey := "profilePicture"
  const PictureFileKey := "profilePictureFile"

  /** The form's initial state, in the order its keys are declared. */
  function InitialForm(): Entries {
    [("firstName", Text("")), ("lastName", Text("")), ("email", Text("")),
     ("username", Text("")), ("password", Text("")), ("password2", Text("")),
     ("address", Text("")), ("dob", Text("")), ("bio", Text("")),
     (PictureKey, Null), (PictureFileKey, Null)]
  }

  /** The six parts every accepted submit starts with, under the server's names. */
  function RequiredParts(form: Entries): Entries {
    [("email", Get(form, "email")), ("password", Get(form, "password")),
     ("password2", Get(form, "password2")), ("first_name", Get(form, "firstName")),
     ("last_name", Get(form, "lastName")), ("address", Get(form, "address"))]
  }

  /** `if (value) data.append(key, value)`. */
  function WhenSet(key: string, v: Value): (r: Entries)
    ensures Keys(r) == if Truthy(v) then [key] else []
    ensures Truthy(v) ==> Get(r, key) == v
  {
    if Truthy(v) then [(key, v)] else []
  }

  class RegisterForm {
    var form: Entries

    constructor()
      ensures form == InitialForm()
    {
      form := InitialForm();
    }

    /** handleChange: the picture input with a file stores the file and its object
        URL (`objectUrl`, standing for `URL.createObjectURL(files[0])`) and nothing
        else; any other change, including a picture input whose selection was
        cancelled, stores the input's value under its name and nothing else. */
    method Change(name: string, value: string, files: seq<File>, objectUrl: string)
      modifies this
      ensures name == PictureKey && |files| > 0 ==>
        Get(form, PictureKey) == Text(objectUrl) && Get(form, PictureFileKey) == FileValue(files[0])
        && forall j :: j != PictureKey && j != PictureFileKey ==> Get(form, j) == Get(old(form), j)
      ensures !(name == PictureKey && |files| > 0) ==>
        Get(form, name) == Text(value)
        && forall j :: j != name ==> Get(form, j) == Get(old(form), j)
    {
      var before := form;
      if name == PictureKey && |files| > 0 {
        var mid := Set(before, PictureKey, Text(objectUrl));
        var after := Set(mid, PictureFileKey, FileValue(files[0]));
        forall j
          ensures Get(after, j) == if j == PictureFileKey then FileValue(files[0])
                                   else if j == PictureKey then Text(objectUrl) else Get(before, j)
        {
          SetGet(before, PictureKey, Text(objectUrl), j);
          SetGet(mid, PictureFileKey, FileValue(files[0]), j);
        }
        form := after;
      } else {
        var after := Set(before, name, Text(value));
        forall j
          ensures Get(after, j) == if j == name then Text(value) else Get(before, j)
        {
          SetGet(before, name, Text(value), j);
        }
        form := after;
      }
    }

    /** handleSubmit up to the request. Mismatched passwords abort with nothing
        sent. Otherwise the body holds email, password, password2, first_name,
        last_name and address in that order, then username and dob only when they
        are non-empty, then the picture file as image only when one was chosen;
        bio is never sent. */
    method Submit() returns (sent: Option<Entries>)
      ensures sent.None? <==> Get(form, "password") != Get(form, "password2")
      ensures sent.Some? ==>
        var body := sent.value;
        |body| >= 6 && body[..6] == RequiredParts(form)
        && ("username" in Keys(body) <==> Truthy(Get(form, "username")))
        && ("dob" in Keys(body) <==> Truthy(Get(form, "dob")))
        && ("image" in Keys(body) <==> Truthy(Get(form, PictureFileKey)))
        && (Truthy(Get(form, "username")) ==> Get(body, "username") == Get(form, "username"))
        && (Truthy(Get(form, "dob")) ==> Get(body, "dob") == Get(form, "dob"))
        && (Truthy(Get(form, PictureFileKey)) ==> Get(body, "image") == Get(form, PictureFileKey))
        && "bio" !in Keys(body)
    {
      if Get(form, "password") != Get(form, "password2") {
        return None;
      }
      var data: Entries := [];
      data := data + [("email", Get(form, "email"))];
      data := data + [("password", Get(form, "password"))];
      data := data + [("password2", Get(form, "password2"))];
      data := data + [("first_name", Get(form, "firstName"))];
      data := data + [("last_name", Get(form, "lastName"))];
      data := data + [("address", Get(form, "address"))];
      var required := data;
      assert required == RequiredParts(form);
      RequiredLacksOptional(form);
      var user := WhenSet("username", Get(form, "username"));
      var dob := WhenSet("dob", Get(form, "dob"));
      var image := WhenSet("image", Get(form, PictureFileKey));
      data := data + user;
      data := data + dob;
      data := data + image;
      var u, d, f := Get(form, "username"), Get(form, "dob"), Get(form, PictureFileKey);
      BodyUsername(required, u, d, f);
      BodyDob(required, u, d, f);
      BodyImage(required, u, d, f);
      BodyNoBio(required, u, d, f);
      sent := Some(data);
    }
  }

  /** An optional part between two stretches that lack its key: the key is in
      the whole exactly when the value is truthy, and then reads back the value. */
  lemma PartLookup(pre: Entries, key: string, v: Value, post: Entries)
    requires key !in Keys(pre) && key !in Keys(post)
    ensures var whole := pre + WhenSet(key, v) + post;
      (key in Keys(whole) <==> Truthy(v)) && (Truthy(v) ==> Get(whole, key) == v)
  {
    var part := WhenSet(key, v);
    KeysAppend(pre, part);
    KeysAppend(pre + part, post);
    GetAppend(pre, part, key);
    GetAppend(pre + part, post, key);
  }

  /** Six parts, none keyed by an optional part or bio. */
  predicate LacksOptional(required: Entries) {
    |required| == 6 && "username" !in Keys(required) && "dob" !in Keys(required)
    && "image" !in Keys(required) && "bio" !in Keys(required)
  }

  /** The required parts carry none of the optional keys. */
  lemma RequiredLacksOptional(form: Entries)
    ensures LacksOptional(RequiredParts(form))
  {
    assert Keys(RequiredParts(form)) == ["email", "password", "password2", "first_name", "last_name", "address"];
  }

  /** The assembled body keeps the required parts first and holds username
      exactly when it is truthy, with its value. */
  lemma BodyUsername(required: Entries, u: Value, d: Value, f: Value)
    requires LacksOptional(required)
    ensures var body := required + WhenSet("username", u) + WhenSet("dob", d) + WhenSet("image", f);
      |body| >= 6 && body[..6] == required
      && ("username" in Keys(body) <==> Truthy(u)) && (Truthy(u) ==> Get(body, "username") == u)
  {
    var user, dob, image := WhenSet("username", u), WhenSet("dob", d), WhenSet("image", f);
    assert required + user + dob + image == required + user + (dob + image);
    KeysAppend(dob, image);
    assert "username" !in Keys(dob + image);
    PartLookup(required, "username", u, dob + image);
    assert (required + user + (dob + image))[..6] == required;
  }

  /** The body holds dob exactly when it is truthy, with its value. */
  lemma BodyDob(required: Entries, u: Value, d: Value, f: Value)
    requires LacksOptional(required)
    ensures var body := required + WhenSet("username", u) + WhenSet("dob", d) + WhenSet("image", f);
      ("dob" in Keys(body) <==> Truthy(d)) && (Truthy(d) ==> Get(body, "dob") == d)
  {
    var user := WhenSet("username", u);
    KeysAppend(required, user);
    PartLookup(required + user, "dob", d, WhenSet("image", f));
  }

  /** The body holds image exactly when the picture file is truthy, with the
      file. */
  lemma BodyImage(required: Entries, u: Value, d: Value, f: Value)
    requires LacksOptional(required)
    ensures var body := required + WhenSet("username", u) + WhenSet("dob", d) + WhenSet("image", f);
      ("image" in Keys(body) <==> Truthy(f)) && (Truthy(f) ==> Get(body, "image") == f)
  {
    var front := required + WhenSet("username", u) + WhenSet("dob", d);
    KeysAppend(required, WhenSet("username", u));
    KeysAppend(required + WhenSet("username", u), WhenSet("dob", d));
    PartLookup(front, "image", f, []);
    assert front + WhenSet("image", f) + [] == front + WhenSet("image", f);
  }

  /** No part of the body is keyed bio: the biography is never sent. */
  lemma BodyNoBio(required: Entries, u: Value, d: Value, f: Value)
    requires LacksOptional(required)
    ensures "bio" !in Keys(required + WhenSet("username", u) + WhenSet("dob", d) + WhenSet("image", f))
  {
    var user, dob, image := WhenSet("username", u), WhenSet("dob", d), WhenSet("image", f);
    KeysAppend(required, user);
    KeysAppend(required + user, dob);
    KeysAppend(required + user + dob, image);
    assert "bio" !in Keys(user) && "bio" !in Keys(dob) && "bio" !in Keys(image);
  }
}
