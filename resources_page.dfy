/**
 * The resources page (app/resources/page.tsx): its title for the `type`
 * query parameter, the type filter it hands to the list, and the state of
 * its two dialogs.
 */
module ResourcesPage {
  import opened Wrappers
  import opened Text
  import opened ResourceContext
  import ResourceList

  const AllResources := "All Resources"
  const TitleSuffix := " Resources"

  /** `getTitle()` for the `type` parameter, which may be missing. */
  function Title(typeParam: Option<string>): (r: string)
    ensures typeParam.None? || typeParam.value == [] ==> r == AllResources
    ensures typeParam.Some? && typeParam.value != [] ==>
      && r == Capitalize(typeParam.value) + TitleSuffix
      && r[0] == UpperChar(typeParam.value[0])
      && r[1..|typeParam.value|] == typeParam.value[1..]
  {
    if typeParam.Some? && typeParam.value != [] then Capitalize(typeParam.value) + TitleSuffix
    else AllResources
  }

  /** The compute page is titled "Compute Resources". */
  lemma ComputeTitle()
    ensures Title(Some("compute")) == "Compute Resources"
  {
    var c := Capitalize("compute");
    assert c[0] == UpperChar('c') == 'C';
    assert c[1..] == "compute"[1..] == "ompute";
    assert c == [c[0]] + c[1..] == "Compute";
    assert "Compute" + TitleSuffix == "Compute Resources";
  }

  /** `typeFilter || undefined`: the page passes no type for a missing or empty parameter. */
  function ListTypeArgument(typeParam: Option<string>): (r: Option<string>)
    ensures r.None? <==> typeParam.None? || typeParam.value == []
    ensures r.Some? ==> r == typeParam
  {
    if typeParam.Some? && typeParam.value != [] then typeParam else None
  }

  /** A page titled for all resources filters on no type, and one titled for a type filters on it. */
  lemma TitleAgreesWithFilter(typeParam: Option<string>)
    ensures Title(typeParam) == AllResources ==> typeParam.None? || typeParam.value in {"", "All", "all"}
    ensures typeParam.None? || typeParam.value == [] ==>
      ResourceList.InitialTypeFilter(ListTypeArgument(typeParam)) == ResourceList.AllTypes
    ensures typeParam.Some? && typeParam.value != [] ==>
      ResourceList.InitialTypeFilter(ListTypeArgument(typeParam)) == typeParam.value
  {
    if typeParam.Some? && typeParam.value != [] && Title(typeParam) == AllResources {
      var t := typeParam.value;
      var c := Capitalize(t);
      assert c + TitleSuffix == "All" + TitleSuffix;
      assert |c| == 3;
      assert c == "All" by {
        assert (c + TitleSuffix)[..3] == c;
        assert ("All" + TitleSuffix)[..3] == "All";
      }
      assert t[1..] == c[1..] == "ll";
      assert UpperChar(t[0]) == 'A';
      assert t == [t[0]] + t[1..];
      if t[0] == 'A' {
        assert t == "All";
      } else {
        assert t[0] == 'a';
        assert t == "all";
      }
    }
  }

  /** The page's dialog state. */
  class PageState {
    var formOpen: bool
    var deleteOpen: bool
    var editingResource: Option<Resource>
    var deletingResource: Option<Resource>

    /** Both dialogs closed, nothing being edited or deleted. */
    constructor ()
      ensures !formOpen && !deleteOpen && editingResource == None && deletingResource == None
    {
      formOpen := false;
      deleteOpen := false;
      editingResource := None;
      deletingResource := None;
    }

    /** `handleAddResource`: an empty form opens. */
    method HandleAddResource()
      modifies this
      ensures formOpen && editingResource == None
      ensures deleteOpen == old(deleteOpen) && deletingResource == old(deletingResource)
    {
      editingResource := None;
      formOpen := true;
    }

    /** `handleEditResource(resource)`: the form opens on the resource. */
    method HandleEditResource(resource: Resource)
      modifies this
      ensures formOpen && editingResource == Some(resource)
      ensures deleteOpen == old(deleteOpen) && deletingResource == old(deletingResource)
    {
      editingResource := Some(resource);
      formOpen := true;
    }

    /** `handleDeleteResource(resource)`: the delete dialog opens on it; the form state is untouched. */
    method HandleDeleteResource(resource: Resource)
      modifies this
      ensures deleteOpen && deletingResource == Some(resource)
      ensures formOpen == old(formOpen) && editingResource == old(editingResource)
    {
      deletingResource := Some(resource);
      deleteOpen := true;
    }

    /** The form's `onOpenChange`; closing keeps the resource last edited. */
    method SetFormOpen(open: bool)
      modifies this
      ensures formOpen == open && editingResource == old(editingResource)
      ensures deleteOpen == old(deleteOpen) && deletingResource == old(deletingResource)
    {
      formOpen := open;
    }

    /** The delete dialog's `onOpenChange`. */
    method SetDeleteOpen(open: bool)
      modifies this
      ensures deleteOpen == open && deletingResource == old(deletingResource)
      ensures formOpen == old(formOpen) && editingResource == old(editingResource)
    {
      deleteOpen := open;
    }
  }
}
