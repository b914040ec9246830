/** The table of conversation handles as the program keeps it: two maps and a
    counter changed in place. */
module ConversationHandles {
  import opened Base
  import opened Messages
  import opened Sessions

  class Handles {
    var byHandle: map<Handle, ConvId>
    var byId: map<ConvId, Handle>
    var next: nat

    function View(): HandleTable
      reads this
    {
      HandleTable(byHandle, byId, next)
    }

    constructor ()
      ensures View() == NewTable() && AllocateOnly(View())
    {
      byHandle, byId, next := map[], map[], 1;
    }

    /** The conversation's handle, a new one if it has none. Old bindings stay, and
        a table that only allocates never hands out a handle twice. */
    method HandleForOrAllocate(conv: ConvId) returns (handle: Option<Handle>)
      modifies this
      ensures match Allocate(old(View()), conv)
              case HandleOk(table, h) => View() == table && handle == Some(h)
              case HandleErr => View() == old(View()) && handle.None?
      ensures old(AllocateOnly(View())) ==> AllocateOnly(View())
      ensures handle.Some? && old(AllocateOnly(View())) ==>
                && View().byHandle == old(byHandle)[handle.value := conv]
                && (handle.value in old(byHandle) ==> old(byHandle)[handle.value] == conv)
    {
      if conv in byId {
        return Some(byId[conv]);
      }
      if next >= U32_MAX {
        return None;
      }
      var raw := next;
      next := next + 1;
      byHandle := byHandle[raw := conv];
      byId := byId[conv := raw];
      return Some(raw);
    }

    /** Takes over a handle the other side chose, unless either side of the pair is taken. */
    method BindHandle(handle: Handle, conv: ConvId) returns (ok: bool)
      modifies this
      ensures match Bind(old(View()), handle, conv)
              case BindOk(table) => ok && View() == table
              case BindErr => !ok && View() == old(View())
      ensures old(Inverse(View())) ==> Inverse(View())
    {
      if handle in byHandle || conv in byId {
        return false;
      }
      byHandle := byHandle[handle := conv];
      byId := byId[conv := handle];
      return true;
    }

    method IdFor(handle: Handle) returns (conv: Option<ConvId>)
      ensures conv == if handle in byHandle then Some(byHandle[handle]) else None
      ensures Inverse(View()) && conv.Some? ==> conv.value in byId && byId[conv.value] == handle
    {
      return if handle in byHandle then Some(byHandle[handle]) else None;
    }

    method HandleFor(conv: ConvId) returns (handle: Option<Handle>)
      ensures handle == if conv in byId then Some(byId[conv]) else None
      ensures Inverse(View()) && handle.Some? ==> handle.value in byHandle && byHandle[handle.value] == conv
    {
      return if conv in byId then Some(byId[conv]) else None;
    }

    /** Forgets a conversation on both sides; its number is not used again. */
    method Forget(conv: ConvId)
      modifies this
      ensures View() == Remove(old(View()), conv)
      ensures old(Inverse(View())) ==> Inverse(View()) && conv !in byId && conv !in byHandle.Values
      ensures old(AllocateOnly(View())) ==> AllocateOnly(View())
    {
      if conv in byId {
        var handle := byId[conv];
        byId := byId - {conv};
        byHandle := byHandle - {handle};
      }
    }
  }
}
