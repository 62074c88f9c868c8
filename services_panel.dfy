/** The services panel (src/components/Services.tsx): category tabs, a
    grid of the category's services and the selected service's details. */
module ServicesPanel {
  import opened Wrappers
  import opened ServicesData

  class Panel {
    var activeCategory: ServiceCategory
    /** `Service | null` in the source. */
    var selectedService: Option<Service>

    /** The selected service is one of the active category's services. */
    predicate Valid()
      reads this
    {
      selectedService.Some? && selectedService.value in ServicesByCategory(activeCategory)
    }

    constructor ()
      ensures activeCategory == Development
      ensures selectedService == Some(Services[0])
      ensures Valid()
    {
      FirstService();
      ServicesByCategoryValue(Development);
      assert Services[0] in Block(Development);
      activeCategory := Development;
      selectedService := Some(Services[0]);
    }

    /** The services the grid shows. */
    function Grid(): seq<Service>
      reads this
    {
      ServicesByCategory(activeCategory)
    }

    /** `handleCategoryChange`: switch tab and select the tab's first service,
        also when the tab was already active. */
    method HandleCategoryChange(category: ServiceCategory)
      modifies this
      ensures activeCategory == category
      ensures |ServicesByCategory(category)| > 0
      ensures selectedService == Some(ServicesByCategory(category)[0])
      ensures Valid()
    {
      activeCategory := category;
      var newServices := ServicesByCategory(category);
      EveryCategoryHasServices(category);
      if |newServices| > 0 {
        selectedService := Some(newServices[0]);
        assert newServices[0] in newServices;
      }
    }

    /** A click on a grid item selects exactly that service. */
    method SelectService(service: Service)
      requires service in Grid()
      modifies this
      ensures selectedService == Some(service)
      ensures activeCategory == old(activeCategory)
      ensures Valid()
    {
      selectedService := Some(service);
    }

    /** A grid item is highlighted when its id is the selected service's id. */
    predicate Highlighted(service: Service)
      reads this
    {
      selectedService.Some? && selectedService.value.id == service.id
    }
  }

  /** In a valid panel the selected service belongs to the active category. */
  lemma SelectedInActiveCategory(panel: Panel)
    requires panel.Valid()
    ensures panel.selectedService.value.category == panel.activeCategory
    ensures panel.selectedService.value in panel.Grid()
  {
    ServicesByCategoryExact(panel.activeCategory);
  }

  /** Since ids are unique, exactly the selected grid item is highlighted. */
  lemma HighlightIsSelection(panel: Panel, service: Service)
    requires panel.Valid()
    requires service in panel.Grid()
    ensures panel.Highlighted(service) <==> panel.selectedService == Some(service)
  {
    ServicesByCategoryExact(panel.activeCategory);
    if panel.Highlighted(service) {
      SameIdSameService(panel.selectedService.value, service);
    }
  }
}
