/** Sequences of requests against one table, and what the handlers' contracts say about the
    second request given the first. */
module Scenarios {
  import opened Values
  import Categories
  import Users
  import Accessories
  import Services
  import Mobiles

  /** Deleting a mobile twice: once it is gone, the same id is not found (404). */
  method DeleteMobileTwice(t: Mobiles.MobileTable, env: Env, idParam: string)
    returns (first: Reply<Mobiles.Mobile>, second: Reply<Mobiles.Mobile>)
    requires t.Valid()
    modifies t
    ensures first.Ok? ==> first.status == NO_CONTENT && second == Err(NOT_FOUND, "m02_id")
    ensures first.Err? ==> second == first
  {
    first := t.Delete(env, idParam);
    second := t.Delete(env, idParam);
  }

  /** Creating the same accessory twice: the second request finds the name in use (409). */
  method CreateAccessoryTwice(t: Accessories.AccessoryTable, env: Env, body: Body)
    returns (first: Reply<Accessories.Accessory>, second: Reply<Accessories.Accessory>)
    requires t.Valid()
    modifies t
    ensures first.Ok? ==> first.status == CREATED && second == Err(CONFLICT, "m03_name")
  {
    first := t.Create(env, body);
    second := t.Create(env, body);
    if first.Ok? {
      assert t.rows[first.data.value.id].name == Field(body, "m03_name");
    }
  }

  /** Sending a category its own current name is refused (409) and changes nothing. */
  method RenameCategoryToItself(t: Categories.CategoryTable, env: Env, idParam: string, id: int)
    returns (reply: Reply<Categories.Category>)
    requires t.Valid()
    requires ParseId(env, idParam) == Some(id) && id in t.rows && Truthy(t.rows[id].name)
    modifies t
    ensures reply == Err(CONFLICT, "name")
    ensures t.rows == old(t.rows)
  {
    reply := t.Update(env, idParam, map["name" := t.rows[id].name]);
  }

  /** Updating a user with the contact number they already hold is no conflict. */
  method UserKeepsOwnNumber(t: Users.UserTable, env: Env, idParam: string, id: int, body: Body,
                            photo: Upload<string>)
    returns (reply: Reply<Users.User>)
    requires t.Valid()
    requires ParseId(env, idParam) == Some(id) && id in t.rows
    requires Users.CheckUser(env, body) == Success(t.rows[id].contactNumber)
    requires !photo.UploadFailed?
    modifies t
    ensures reply.Ok? && reply.status == OK && reply.data.Some?
    ensures reply.data.value.contactNumber == old(t.rows[id].contactNumber)
  {
    reply := t.Update(env, idParam, body, photo);
  }

  /** Updating an accessory under the name it already holds is no conflict. */
  method AccessoryKeepsOwnName(t: Accessories.AccessoryTable, env: Env, idParam: string, id: int,
                               body: Body)
    returns (reply: Reply<Accessories.Accessory>)
    requires t.Valid()
    requires ParseId(env, idParam) == Some(id) && id in t.rows
    requires Field(body, "m03_name") == t.rows[id].name
    requires Accessories.CheckFields(env, body, true).Success?
    modifies t
    ensures reply != Err(CONFLICT, "m03_name")
  {
    reply := t.Update(env, idParam, body);
  }

  /** A completed service stays completed whatever update it receives. */
  method ServiceStaysCompleted(t: Services.ServiceTable, env: Env, idParam: string, id: int, body: Body)
    returns (reply: Reply<Services.Service>)
    requires t.Valid()
    requires ParseId(env, idParam) == Some(id) && id in t.rows && Truthy(t.rows[id].completed)
    modifies t
    ensures id in t.rows && Truthy(t.rows[id].completed)
  {
    ghost var before := t.rows[id];
    reply := t.Update(env, idParam, body);
    var check := Services.CheckService(env, body, true);
    if check.Success? {
      Services.CompletedAndUserNeverCleared(before, body, check.value);
    }
  }
}
