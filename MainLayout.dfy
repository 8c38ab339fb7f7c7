/**
 * The signed-in layout's header: the view-mode toggle, the category dropdown with its
 * selection and its add-category form, and the mobile menu.
 */
module MainLayout {
  import opened Wrappers
  import opened Strings
  import opened Types

  /** The view toggle: flip becomes slide and slide becomes flip. */
  function ToggleView(m: ViewMode): (r: ViewMode)
    ensures r != m
  {
    if m.Flip? then Slide else Flip
  }

  /** Toggling twice restores the mode. */
  lemma ToggleViewTwice(m: ViewMode)
    ensures ToggleView(ToggleView(m)) == m
  {
  }

  /** The toggle's caption names the mode it switches to. */
  function ToggleCaption(m: ViewMode): (r: string)
    ensures r == (if ToggleView(m).Slide? then "Slide" else "Flip")
  {
    if m.Flip? then "Slide" else "Flip"
  }

  /** The dropdown button's label: "All Categories" for the sentinel, the category name otherwise. */
  function CategoryLabel(selectedCategory: string): (r: string)
    ensures selectedCategory == AllSentinel ==> r == "All Categories"
    ensures selectedCategory != AllSentinel ==> r == selectedCategory
  {
    SentinelLabel(selectedCategory, "All Categories")
  }

  /** The layout's state. */
  class LayoutState {
    var viewMode: ViewMode
    var selectedCategory: string
    var isCategoryDropdownOpen: bool
    var categories: seq<Category>
    var isMobileMenuOpen: bool
    var newCategory: string
    var isAddingCategory: bool

    /** The layout starts in flip mode with every category selected and nothing open. */
    constructor ()
      ensures viewMode == Flip && selectedCategory == AllSentinel
      ensures !isCategoryDropdownOpen && categories == [] && !isMobileMenuOpen
      ensures newCategory == "" && !isAddingCategory
    {
      viewMode := Flip;
      selectedCategory := AllSentinel;
      isCategoryDropdownOpen := false;
      categories := [];
      isMobileMenuOpen := false;
      newCategory := "";
      isAddingCategory := false;
    }

    /** Loading the categories: the returned rows (none read as empty); no user or an error keeps the list. */
    method FetchCategories(user: Option<string>, rows: Outcome<Option<seq<Category>>>)
      modifies this`categories
      ensures categories == if user.Some? && rows.Ok? then rows.value.GetOr([]) else old(categories)
    {
      if user.Some? && rows.Ok? {
        categories := rows.value.GetOr([]);
      }
    }

    /** Choosing a category (or "All Categories") selects it and closes the dropdown and the mobile menu. */
    method CategorySelect(category: string)
      modifies this`selectedCategory, this`isCategoryDropdownOpen, this`isMobileMenuOpen
      ensures selectedCategory == category && !isCategoryDropdownOpen && !isMobileMenuOpen
    {
      selectedCategory := category;
      isCategoryDropdownOpen := false;
      isMobileMenuOpen := false;
    }

    /** The view toggle button (desktop or mobile). */
    method ToggleViewMode()
      modifies this`viewMode
      ensures viewMode == ToggleView(old(viewMode))
    {
      viewMode := if viewMode.Flip? then Slide else Flip;
    }

    /** The dropdown button. */
    method ToggleCategoryDropdown()
      modifies this`isCategoryDropdownOpen
      ensures isCategoryDropdownOpen == !old(isCategoryDropdownOpen)
    {
      isCategoryDropdownOpen := !isCategoryDropdownOpen;
    }

    /** The mobile menu button. */
    method ToggleMobileMenu()
      modifies this`isMobileMenuOpen
      ensures isMobileMenuOpen == !old(isMobileMenuOpen)
    {
      isMobileMenuOpen := !isMobileMenuOpen;
    }

    /** "Add Category" shows the form. */
    method StartAddingCategory()
      modifies this`isAddingCategory
      ensures isAddingCategory
    {
      isAddingCategory := true;
    }

    method TypeNewCategory(text: string)
      modifies this`newCategory
      ensures newCategory == text
    {
      newCategory := text;
    }

    /**
     * Submitting the add form: a blank name or no user sends nothing and changes nothing; the
     * insert carries the trimmed name. A successful insert appends the returned row, clears
     * the input and closes the form; a failed one changes nothing.
     */
    method AddCategory(user: Option<string>, insert: Outcome<Category>) returns (sent: Option<NewCategory>)
      modifies this`categories, this`newCategory, this`isAddingCategory
      ensures sent == CategoryInsert(old(newCategory), user)
      ensures sent.Some? && insert.Ok? ==>
        categories == old(categories) + [insert.value] && newCategory == "" && !isAddingCategory
      ensures sent.None? || insert.Err? ==>
        categories == old(categories) && newCategory == old(newCategory) && isAddingCategory == old(isAddingCategory)
    {
      sent := CategoryInsert(newCategory, user);
      if sent.None? || insert.Err? {
        return;
      }
      categories := categories + [insert.value];
      newCategory := "";
      isAddingCategory := false;
    }
  }
}
