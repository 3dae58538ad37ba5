/**
 * The database package's lazily created Supabase client: a module-level slot that
 * the first `createSupabaseClient` fills and that nothing empties or replaces.
 */
module SupabaseClientSlot {
  import opened Wrappers

  /** The client `createClient(url, anonKey)` builds, identified by its arguments. */
  datatype SupabaseClient = SupabaseClient(url: string, anonKey: string)

  const NotInitialized := "Supabase client not initialized. Call createSupabaseClient first."

  /** `createSupabaseClient`: the new slot and the client returned. */
  function CreateStep(slot: Option<SupabaseClient>, url: string, anonKey: string): (r: (Option<SupabaseClient>, SupabaseClient))
    ensures r.0 == Some(r.1)
    ensures slot.Some? ==> r.1 == slot.value
    ensures slot.None? ==> r.1 == SupabaseClient(url, anonKey)
  {
    if slot.None? then (Some(SupabaseClient(url, anonKey)), SupabaseClient(url, anonKey))
    else (slot, slot.value)
  }

  /** `getSupabaseClient`: the stored client, or the error it throws when there is none. */
  function GetClient(slot: Option<SupabaseClient>): (r: Result<SupabaseClient, string>)
    ensures r.Err? <==> slot.None?
    ensures r.Err? ==> r.error == NotInitialized
    ensures r.Ok? ==> r.value == slot.value
  {
    if slot.None? then Err(NotInitialized) else Ok(slot.value)
  }

  /** Only the first creation counts: a later call returns the same client and leaves the slot as it was. */
  lemma FirstCreateWins(slot: Option<SupabaseClient>, url: string, anonKey: string, url2: string, anonKey2: string)
    ensures var (after, c) := CreateStep(slot, url, anonKey);
      CreateStep(after, url2, anonKey2) == (after, c)
  {
  }

  /** After any creation, getting the client returns exactly what creation returned. */
  lemma GetAfterCreate(slot: Option<SupabaseClient>, url: string, anonKey: string)
    ensures var (after, c) := CreateStep(slot, url, anonKey);
      GetClient(after) == Ok(c)
  {
  }

  /** The module's state. */
  class ClientSlot {
    var slot: Option<SupabaseClient>

    constructor()
      ensures slot == None
    {
      slot := None;
    }

    method CreateSupabaseClient(url: string, anonKey: string) returns (client: SupabaseClient)
      modifies this
      ensures (slot, client) == CreateStep(old(slot), url, anonKey)
    {
      if slot.None? {
        slot := Some(SupabaseClient(url, anonKey));
      }
      client := slot.value;
    }

    method GetSupabaseClient() returns (r: Result<SupabaseClient, string>)
      ensures r == GetClient(slot)
    {
      if slot.None? {
        return Err(NotInitialized);
      }
      r := Ok(slot.value);
    }
  }
}
